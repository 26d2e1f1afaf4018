/** Convergence: a newest snapshot is in MySQL, or some thread still carries its uid there. */
module WriteBehindDelivery {
  import opened Collections
  import opened WriteBehindModel
  import opened WriteBehindStores

  // ---------------------------------------------------------------- shards and the timer's list

  /** The stolen uids that the timer has neither pushed nor marked again. */
  ghost function TimerHolds(t: Timer): seq<Uid>
    requires TimerWf(t)
  {
    match t
    case Stealing(_, stolen) => stolen
    case Batching(uids, i) => uids[i..]
    case Remarking(uids, _, _, k) => uids[k..]
    case _ => []
  }

  ghost predicate TimerWf(t: Timer) {
    match t
    case Stealing(next, _) => next < SHARDS
    case Batching(uids, i) => i < |uids|
    case Remarking(uids, i, end, k) => i <= k < end <= |uids|
    case _ => true
  }

  ghost predicate ShardsInv(s: State) {
    && |s.dirty| == SHARDS
    && (forall k, u :: 0 <= k < SHARDS && u in s.dirty[k] ==> ShardOf(u) == k)
    && TimerWf(s.timer)
    && NoDup(TimerHolds(s.timer))
    && (s.timer.Stealing? ==> forall u :: u in s.timer.stolen ==> ShardOf(u) < s.timer.next)
    && (s.timer.Remarking? ==>
      s.timer.end == EndOfBatch(s.timer.uids, s.timer.i, MaxBatch(s.maxBatchUids)))
  }

  lemma ShardsStep(s: State, step: Step)
    requires Enabled(s, step) && ShardsInv(s)
    ensures ShardsInv(Apply(s, step))
  {
    match step {
      case Visit(order) => ShardsVisit(s, step);
      case Mark(t) =>
      case MarkOnly(u) =>
      case Remark => ShardsRemark(s);
      case PushBatch => ShardsPushBatch(s);
      case _ =>
        assert Apply(s, step).dirty == s.dirty;
    }
  }

  lemma ShardsVisit(s: State, step: Step)
    requires step.Visit? && Enabled(s, step) && ShardsInv(s)
    ensures ShardsInv(Apply(s, step))
  {
    NoDupConcat(s.timer.stolen, step.order);
    var s' := Apply(s, step);
    if s'.timer.Batching? { assert TimerHolds(s'.timer) == s.timer.stolen + step.order; }
  }

  lemma ShardsRemark(s: State)
    requires Enabled(s, Remark) && ShardsInv(s)
    ensures ShardsInv(Apply(s, Remark))
  {
    var s' := Apply(s, Remark);
    var held := TimerHolds(s.timer);
    assert s'.timer.Remarking? || s'.timer.Batching? ==> TimerHolds(s'.timer) == held[1..];
  }

  lemma ShardsPushBatch(s: State)
    requires Enabled(s, PushBatch) && ShardsInv(s)
    ensures ShardsInv(Apply(s, PushBatch))
  {
    var s' := Apply(s, PushBatch);
    var held, m := TimerHolds(s.timer), MaxBatch(s.maxBatchUids);
    if s'.timer.Batching? { assert TimerHolds(s'.timer) == held[m..]; }
    if s'.timer.Remarking? { assert TimerHolds(s'.timer) == held; }
  }

  // ---------------------------------------------------------------- carriers

  ghost predicate ProducerCarries(producers: seq<Producer>, u: Uid) {
    exists t :: 0 <= t < |producers| && (producers[t] == Pushed(u) || producers[t] == Counted(u))
  }

  ghost predicate QueueCarries(queue: seq<Job>, u: Uid) {
    exists j :: 0 <= j < |queue| && u in queue[j]
  }

  /** The job in hand will still see uid's newest snapshot: it drains the queue later, or the
      snapshot has left the queue already, or it has been read back. */
  ghost predicate WorkerCarries(s: State, u: Uid) {
    match s.worker
    case Parked => false
    case Connecting(job) => u in job
    case Swapping(job) => u in job
    case Upserting(job, rows) => u in job && exists r :: r in rows && r.uid == u && r.ver == LatestVer(s, u)
    case w => u in w.job && LatestVer(s, u) <= |s.log| - |s.db.rtQ|
  }

  ghost predicate Carried(s: State, u: Uid)
    requires ShardsInv(s)
  {
    || ProducerCarries(s.producers, u)
    || u in s.dirty[ShardOf(u)]
    || u in TimerHolds(s.timer)
    || QueueCarries(s.queue, u)
    || WorkerCarries(s, u)
  }

  ghost predicate OnItsWay(s: State, u: Uid)
    requires ShardsInv(s)
  {
    LatestVer(s, u) > 0 && u !in s.lost && u !in s.unmarked ==> Carried(s, u) || InMysql(s, u)
  }

  // ---------------------------------------------------------------- preservation, uid by uid

  lemma PushCarries(s: State, step: Step, u: Uid)
    requires step.Push? && Enabled(s, step) && StoresInv(s) && ShardsInv(s) && OnItsWay(s, u)
    requires ShardsInv(Apply(s, step))
    ensures OnItsWay(Apply(s, step), u)
  {
    var s' := Apply(s, step);
    if u == step.uid {
      assert s'.producers[step.t] == Pushed(u);
    } else {
      LatestPrefix(s.log, [s'.log[|s.log|]], |s.log|, u);
      assert LatestVer(s', u) == LatestVer(s, u);
      assert ProducerCarries(s.producers, u) ==> ProducerCarries(s'.producers, u) by {
        assert forall t :: 0 <= t < |s.producers| && t != step.t ==> s'.producers[t] == s.producers[t];
      }
      assert WorkerCarries(s, u) ==> WorkerCarries(s', u);
    }
  }

  lemma FieldThreadCarries(s: State, step: Step, u: Uid)
    requires step.Count? || step.Mark? || step.MarkOnly?
    requires Enabled(s, step) && ShardsInv(s) && OnItsWay(s, u) && ShardsInv(Apply(s, step))
    ensures OnItsWay(Apply(s, step), u)
  {
    var s' := Apply(s, step);
    assert WorkerCarries(s, u) ==> WorkerCarries(s', u);
    if ProducerCarries(s.producers, u) && !step.MarkOnly? {
      var t :| 0 <= t < |s.producers| && (s.producers[t] == Pushed(u) || s.producers[t] == Counted(u));
      if t != step.t { assert s'.producers[t] == s.producers[t]; }
      else if step.Count? { assert s'.producers[t] == Counted(u); }
    }
  }

  lemma TimerCarries(s: State, step: Step, u: Uid)
    requires step.Fire? || step.Visit? || step.LoadPending? || step.PushWake? || step.PushBatch? || step.Remark?
    requires Enabled(s, step) && ShardsInv(s) && OnItsWay(s, u) && ShardsInv(Apply(s, step))
    ensures OnItsWay(Apply(s, step), u)
  {
    var s' := Apply(s, step);
    assert WorkerCarries(s, u) ==> WorkerCarries(s', u);
    assert QueueCarries(s.queue, u) ==> QueueCarries(s'.queue, u) by {
      assert s.queue <= s'.queue;
    }
    if u in TimerHolds(s.timer) {
      if step.PushBatch? { PushedBatchCarries(s, u); }
      if step.Remark? { RemarkCarries(s, u); }
    }
  }

  lemma PushBatchHolds(s: State)
    requires Enabled(s, PushBatch) && ShardsInv(s)
    ensures var s', uids, i := Apply(s, PushBatch), s.timer.uids, s.timer.i;
      var n := EndOfBatch(uids, i, MaxBatch(s.maxBatchUids)) - i;
      var held := TimerHolds(s.timer);
      && n <= |held|
      && TimerWf(s'.timer)
      && if s'.timer.Remarking? then TimerHolds(s'.timer) == held && s'.queue == s.queue
         else TimerHolds(s'.timer) == held[n..] && s'.queue == s.queue + [held[..n]]
  {
    var uids, i := s.timer.uids, s.timer.i;
    var n := EndOfBatch(uids, i, MaxBatch(s.maxBatchUids)) - i;
    assert uids[i..i + n] == uids[i..][..n];
  }

  lemma InEitherPart(held: seq<Uid>, n: nat, u: Uid)
    requires n <= |held| && u in held
    ensures u in held[..n] || u in held[n..]
  {
    assert held == held[..n] + held[n..];
  }

  lemma CarriedByNew(queue: seq<Job>, job: Job, u: Uid)
    requires u in job
    ensures QueueCarries(queue + [job], u)
  {
    assert (queue + [job])[|queue|] == job;
  }

  lemma PushedBatchCarries(s: State, u: Uid)
    requires Enabled(s, PushBatch) && ShardsInv(s) && u in TimerHolds(s.timer)
    requires ShardsInv(Apply(s, PushBatch))
    ensures var s' := Apply(s, PushBatch); QueueCarries(s'.queue, u) || u in TimerHolds(s'.timer)
  {
    var held := TimerHolds(s.timer);
    var n := EndOfBatch(s.timer.uids, s.timer.i, MaxBatch(s.maxBatchUids)) - s.timer.i;
    PushBatchHolds(s);
    InEitherPart(held, n, u);
    if u in held[..n] { CarriedByNew(s.queue, held[..n], u); }
  }

  lemma RemarkCarries(s: State, u: Uid)
    requires Enabled(s, Remark) && ShardsInv(s) && u in TimerHolds(s.timer)
    requires ShardsInv(Apply(s, Remark))
    ensures var s' := Apply(s, Remark); u in s'.dirty[ShardOf(u)] || u in TimerHolds(s'.timer)
  {
    var held, s' := TimerHolds(s.timer), Apply(s, Remark);
    var i :| 0 <= i < |held| && held[i] == u;
    if i == 0 {
      assert u in s'.dirty[ShardOf(u)];
    } else {
      assert TimerHolds(s'.timer) == held[1..];
      assert held[1..][i - 1] == u;
    }
  }

  lemma PopCarries(s: State, u: Uid)
    requires Enabled(s, Pop) && ShardsInv(s) && OnItsWay(s, u) && ShardsInv(Apply(s, Pop))
    ensures OnItsWay(Apply(s, Pop), u)
  {
    var s' := Apply(s, Pop);
    if QueueCarries(s.queue, u) {
      var j :| 0 <= j < |s.queue| && u in s.queue[j];
      if j > 0 { assert s'.queue[j - 1] == s.queue[j]; }
    }
  }

  lemma WorkerMovesOn(s: State, step: Step, u: Uid)
    requires step.Connect? || step.Swap? || step.Subtract? || step.Write? || step.Reconnect?
    requires Enabled(s, step) && ShardsInv(s) && OnItsWay(s, u) && ShardsInv(Apply(s, step))
    ensures OnItsWay(Apply(s, step), u)
  {
    var s' := Apply(s, step);
    assert LatestVer(s', u) == LatestVer(s, u) && s'.db.mysql == s.db.mysql;
    assert s'.producers == s.producers && s'.dirty == s.dirty && s'.timer == s.timer && s'.queue == s.queue;
  }

  lemma FetchCarries(s: State, step: Step, u: Uid)
    requires step.Fetch? && Enabled(s, step) && StoresInv(s) && ShardsInv(s) && OnItsWay(s, u)
    requires ShardsInv(Apply(s, step))
    ensures OnItsWay(Apply(s, step), u)
  {
    var s' := Apply(s, step);
    if step.ok && WorkerCarries(s, u) && u !in s.lost && LatestVer(s, u) > 0 {
      RowsAreStored(s.db.redis, s.worker.job);
      assert LostFits(s.db, s.log, Offered(s.db, s.log, s.worker), s.lost, u);
      assert s.db.redis[u] in Rows(s.db.redis, s.worker.job);
    }
  }

  lemma UpsertCarries(s: State, step: Step, u: Uid)
    requires step.Upsert? && Enabled(s, step) && StoresInv(s) && ShardsInv(s) && OnItsWay(s, u)
    requires ShardsInv(Apply(s, step))
    ensures OnItsWay(Apply(s, step), u)
  {
    var s' := Apply(s, step);
    UpsertedRows(s, step);
    if LatestVer(s, u) > 0 && u !in s.lost && u !in s'.unmarked {
      if step.ok && WorkerCarries(s, u) {
        assert s.worker.rows[..step.n] == s.worker.rows;
        ApplyRows(s.db.mysql, s.worker.rows, s.db.redis, u);
      } else if InMysql(s, u) {
        StillNewest(s, step, u);
      }
    }
  }

  /** A row that is already the newest stays so. */
  lemma MysqlRowIs(s: State, u: Uid)
    requires StoresInv(s) && u in s.db.mysql && s.db.mysql[u].ver > 0
    ensures s.db.mysql[u].ver <= |s.log| && s.log[s.db.mysql[u].ver - 1].uid == u
  {
  }

  /** A row that is already the newest stays so. */
  lemma StillNewest(s: State, step: Step, u: Uid)
    requires step.Upsert? && Enabled(s, step) && StoresInv(s) && InMysql(s, u) && LatestVer(s, u) > 0
    ensures InMysql(Apply(s, step), u)
  {
    var s' := Apply(s, step);
    NoRegressionStep(s, step);
    StoresStep(s, step);
    MysqlRowIs(s', u);
    LatestIsLast(s.log, |s.log|, u, s'.db.mysql[u].ver - 1);
  }

  lemma OnItsWayStep(s: State, step: Step, u: Uid)
    requires Enabled(s, step) && StoresInv(s) && ShardsInv(s) && OnItsWay(s, u)
    ensures ShardsInv(Apply(s, step)) && OnItsWay(Apply(s, step), u)
  {
    ShardsStep(s, step);
    match step {
      case Push(_, _, _) => PushCarries(s, step, u);
      case Count(_) => FieldThreadCarries(s, step, u);
      case Mark(_) => FieldThreadCarries(s, step, u);
      case MarkOnly(_) => FieldThreadCarries(s, step, u);
      case Fetch(_) => FetchCarries(s, step, u);
      case Upsert(_, _) => UpsertCarries(s, step, u);
      case Pop => PopCarries(s, u);
      case Connect(_) => WorkerMovesOn(s, step, u);
      case Swap => WorkerMovesOn(s, step, u);
      case Subtract => WorkerMovesOn(s, step, u);
      case Write(_, _) => WorkerMovesOn(s, step, u);
      case Reconnect(_) => WorkerMovesOn(s, step, u);
      case _ => TimerCarries(s, step, u);
    }
  }

  // ---------------------------------------------------------------- what the history means

  /** MySQL is behind on every uid whose mark is counted as gone. */
  ghost predicate BehindOnUnmarked(s: State) { forall u :: u in s.unmarked ==> !InMysql(s, u) }

  lemma BehindPush(s: State, step: Step)
    requires step.Push? && Enabled(s, step) && StoresInv(s) && BehindOnUnmarked(s)
    ensures BehindOnUnmarked(Apply(s, step))
  {
    var s' := Apply(s, step);
    forall u | u in s'.unmarked ensures !InMysql(s', u) {
      if u != step.uid { LatestPrefix(s.log, [s'.log[|s.log|]], |s.log|, u); }
    }
  }

  lemma BehindStep(s: State, step: Step)
    requires Enabled(s, step) && StoresInv(s) && BehindOnUnmarked(s)
    ensures BehindOnUnmarked(Apply(s, step))
  {
    if step.Push? {
      BehindPush(s, step);
    } else {
      var s' := Apply(s, step);
      assert s'.log == s.log;
      forall u | u in s'.unmarked ensures !InMysql(s', u) {}
    }
  }

  ghost predicate RowsOf(job: Job, rows: seq<Snapshot>) { forall r :: r in rows ==> r.uid in job }

  /** The rows about to be upserted are rows of the job's own uids. */
  ghost predicate RowsOfJob(worker: Worker) { worker.Upserting? ==> RowsOf(worker.job, worker.rows) }

  lemma {:induction false} FetchedRowsOf(redis: Store, job: Job, part: Job)
    requires (forall u :: u in redis ==> redis[u].uid == u) && forall u :: u in part ==> u in job
    ensures RowsOf(job, Rows(redis, part))
  {
    if part != [] { FetchedRowsOf(redis, job, part[1..]); }
  }

  lemma RowsStep(s: State, step: Step)
    requires Enabled(s, step) && StoresInv(s) && RowsOfJob(s.worker)
    ensures RowsOfJob(Apply(s, step).worker)
  {
    if step.Fetch? { FetchedRowsOf(s.db.redis, s.worker.job, s.worker.job); }
  }

  // ---------------------------------------------------------------- convergence

  ghost predicate DeliveryInv(s: State) {
    && StoresInv(s) && ShardsInv(s) && (forall u :: OnItsWay(s, u))
    && BehindOnUnmarked(s) && RowsOfJob(s.worker)
  }

  lemma DeliveryInit(s: State)
    requires Initial(s)
    ensures DeliveryInv(s)
  {
    StoresInit(s);
  }

  lemma DeliveryStep(s: State, step: Step)
    requires Enabled(s, step) && DeliveryInv(s)
    ensures DeliveryInv(Apply(s, step))
  {
    StoresStep(s, step);
    ShardsStep(s, step);
    BehindStep(s, step);
    RowsStep(s, step);
    forall u ensures OnItsWay(Apply(s, step), u) { OnItsWayStep(s, step, u); }
  }

  lemma {:induction false} DeliveryRun(s: State, steps: seq<Step>)
    requires DeliveryInv(s) && ValidRun(s, steps)
    ensures DeliveryInv(Run(s, steps))
    decreases |steps|
  {
    if steps != [] {
      DeliveryStep(s, steps[0]);
      DeliveryRun(Apply(s, steps[0]), steps[1..]);
    }
  }

  /** At every step of every interleaving: a uid with a newest snapshot that no failed Redis batch
      took, and a mark that no failed job took, is in MySQL up to date or is still carried by a
      producer, a shard, the timer, a queued job or the job in hand. */
  lemma Convergence(init: State, steps: seq<Step>, u: Uid)
    requires Initial(init) && ValidRun(init, steps)
    ensures var s := Run(init, steps);
      && ShardsInv(s)
      && (LatestVer(s, u) > 0 && u !in s.lost && u !in s.unmarked ==> Carried(s, u) || InMysql(s, u))
  {
    DeliveryInit(init);
    DeliveryRun(init, steps);
    assert OnItsWay(Run(init, steps), u);
  }

  /** A lost uid is up to date in neither store. */
  lemma LostNotStored(s: State, u: Uid)
    requires StoresInv(s) && u in s.lost && LatestVer(s, u) > 0
    ensures !InRedis(s.db, u, LatestVer(s, u)) && !InMysql(s, u)
  {
    assert LostFits(s.db, s.log, Offered(s.db, s.log, s.worker), s.lost, u);
    if InMysql(s, u) {
      MysqlFollows(s, u);
      RedisRowIs(s, u);
      LatestIsLast(s.log, |s.log|, u, s.db.redis[u].ver - 1);
      assert false;
    }
  }

  lemma RedisRowIs(s: State, u: Uid)
    requires StoresInv(s) && u in s.db.redis && s.db.redis[u].ver > 0
    ensures s.db.redis[u].ver <= |s.log| && s.log[s.db.redis[u].ver - 1].uid == u
  {
  }

  lemma MysqlFollows(s: State, u: Uid)
    requires StoresInv(s) && u in s.db.mysql && s.db.mysql[u].ver > 0
    ensures u in s.db.redis && s.db.mysql[u].ver <= s.db.redis[u].ver
  {
  }

  /** Once every thread has nothing left to do, a uid is up to date in MySQL exactly when neither its
      newest snapshot went down with a failed Redis batch nor its mark with a dropped job. */
  lemma DrainedExactly(init: State, steps: seq<Step>, u: Uid)
    requires Initial(init) && ValidRun(init, steps)
    requires Drained(Run(init, steps)) && LatestVer(Run(init, steps), u) > 0
    ensures var s := Run(init, steps); InMysql(s, u) <==> u !in s.lost && u !in s.unmarked
  {
    var s := Run(init, steps);
    DeliveryInit(init);
    DeliveryRun(init, steps);
    assert OnItsWay(s, u);
    if u in s.lost { LostNotStored(s, u); }
  }

  ghost predicate FailureFree(steps: seq<Step>) {
    forall i :: 0 <= i < |steps| ==> match steps[i]
      case Connect(ok) => ok
      case Write(_, ok) => ok
      case Reconnect(ok) => ok
      case Fetch(ok) => ok
      case Upsert(_, ok) => ok
      case _ => true
  }

  lemma {:induction false} NothingLost(s: State, steps: seq<Step>)
    requires ValidRun(s, steps) && FailureFree(steps) && s.lost == {} && s.unmarked == {}
    ensures Run(s, steps).lost == {} && Run(s, steps).unmarked == {}
    decreases |steps|
  {
    if steps != [] {
      if steps[0].Write? { assert s.db.local[steps[0].n..] == []; }
      NothingLost(Apply(s, steps[0]), steps[1..]);
    }
  }

  /** No failed call: when all is drained, MySQL holds the newest snapshot of every uid, field by
      field, and the snapshot queue is empty. */
  lemma DrainedMeansStored(init: State, steps: seq<Step>)
    requires Initial(init) && ValidRun(init, steps) && FailureFree(steps)
    requires Drained(Run(init, steps))
    ensures var s := Run(init, steps);
      && s.db.rtQ == []
      && forall u :: LatestVer(s, u) > 0 ==> u in s.db.mysql && s.db.mysql[u] == s.log[LatestVer(s, u) - 1]
  {
    var s := Run(init, steps);
    DeliveryInit(init);
    DeliveryRun(init, steps);
    NothingLost(init, steps);
    forall u | LatestVer(s, u) > 0
      ensures u in s.db.mysql && s.db.mysql[u] == s.log[LatestVer(s, u) - 1]
    {
      DrainedExactly(init, steps, u);
    }
    if s.log != [] {
      assert LatestVer(s, s.log[|s.log| - 1].uid) == |s.log|;
    }
  }
}
