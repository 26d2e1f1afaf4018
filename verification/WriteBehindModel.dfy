/** The write-behind pipeline of storage/StorageSystem.cpp as a step machine: one step per lock
    section, atomic operation or foreign call.

    Field threads push a snapshot, count it and mark its uid dirty. The timer steals the dirty
    shards one at a time, cuts the stolen uids into batches, pushes each batch to the bounded job
    queue and re-marks a rejected batch. The single DB thread pops a job, drains the snapshot queue
    into Redis, reads the job's uids back and upserts them into MySQL. Every foreign call may fail.
 */
module WriteBehindModel {
  import opened Collections

  type Uid = u: nat | u < 0x1_0000_0000_0000_0000

  const SHARDS: nat := 64
  const MAX_QUEUE: nat := 360
  const UINT32: nat := 0x1_0000_0000

  datatype Body = Body(x: real, z: real, hp: int, sp: int)

  /** `ver` is the place of the snapshot in the global enqueue order, counted from 1. Rows that were
      stored before the run have version 0. No branch of the code looks at it. */
  datatype Snapshot = Snapshot(uid: Uid, ver: nat, body: Body)

  type Job = seq<Uid>
  type Store = map<Uid, Snapshot>

  // ---------------------------------------------------------------- the database side

  /** What the DB thread works on: the shared snapshot queue and counter, its private buffer, the two
      connections and the contents of the two stores. */
  datatype Db = Db(
    rtQ: seq<Snapshot>,
    local: seq<Snapshot>,
    pending: nat,
    redisUp: bool,
    mysqlUp: bool,
    redis: Store,
    mysql: Store)
  {
    predicate Up() { redisUp && mysqlUp }

    function Disconnected(): Db { this.(redisUp := false, mysqlUp := false) }
  }

  /** Batch writes apply in order, so the last row of a uid wins. */
  function ApplyAll(m: Store, rows: seq<Snapshot>): Store {
    if rows == [] then m
    else
      var last := rows[|rows| - 1];
      ApplyAll(m, rows[..|rows| - 1])[last.uid := last]
  }

  function EnqueuedDb(db: Db, s: Snapshot): Db { db.(rtQ := db.rtQ + [s]) }

  function CountedDb(db: Db): Db { db.(pending := (db.pending + 1) % UINT32) }

  function ConnectedDb(db: Db, ok: bool): Db {
    if db.Up() then db else db.(redisUp := ok, mysqlUp := ok)
  }

  function SwappedDb(db: Db): Db { db.(local := db.rtQ, rtQ := []) }

  function SubtractedDb(db: Db): Db {
    db.(pending := (db.pending + UINT32 - |db.local| % UINT32) % UINT32)
  }

  function WrittenDb(db: Db, n: nat, ok: bool): Db
    requires n <= |db.local|
  {
    var written := db.(redis := ApplyAll(db.redis, db.local[..n]));
    if ok then written else written.Disconnected()
  }

  /** FetchUsers: the stored rows among the requested uids, in request order. */
  function Rows(redis: Store, job: Job): seq<Snapshot> {
    if job == [] then []
    else (if job[0] in redis then [redis[job[0]]] else []) + Rows(redis, job[1..])
  }

  function UpsertedDb(db: Db, rows: seq<Snapshot>, n: nat, ok: bool): Db
    requires n <= |rows|
  {
    var upserted := db.(mysql := ApplyAll(db.mysql, rows[..n]));
    if ok then upserted else upserted.Disconnected()
  }

  // ---------------------------------------------------------------- threads

  /** A field thread inside enqueue_rt_write followed by mark_dirty. */
  datatype Producer = Quiet | Pushed(uid: Uid) | Counted(uid: Uid)

  datatype Timer =
    | Resting
    | Stealing(next: nat, stolen: seq<Uid>)
    | Checking
    | Waking
    | Batching(uids: seq<Uid>, i: nat)
    | Remarking(uids: seq<Uid>, i: nat, end: nat, k: nat)

  datatype Worker =
    | Parked
    | Connecting(job: Job)
    | Swapping(job: Job)
    | Subtracting(job: Job)
    | Writing(job: Job)
    | Reconnecting(job: Job)
    | Fetching(job: Job)
    | Upserting(job: Job, rows: seq<Snapshot>)

  /** Every mark is a token. `merged` counts the marks that found their uid already dirty. */
  datatype Account = Account(
    minted: multiset<Uid>,
    merged: multiset<Uid>,
    handled: multiset<Uid>,
    dropped: multiset<Uid>)

  /** `log` is every snapshot in enqueue order. `lost` holds the uids whose newest snapshot went down
      with a failed Redis batch, `unmarked` those whose mark went down with a dropped job when MySQL
      was behind on them, and that were neither marked nor stored since. These three and `acc` are
      history: no step's branch looks at them. */
  datatype State = State(
    db: Db,
    log: seq<Snapshot>,
    dirty: seq<set<Uid>>,
    producers: seq<Producer>,
    timer: Timer,
    queue: seq<Job>,
    worker: Worker,
    maxBatchUids: nat,
    lost: set<Uid>,
    unmarked: set<Uid>,
    acc: Account)

  // ---------------------------------------------------------------- steps

  datatype Step =
    // field threads
    | Push(t: nat, uid: Uid, body: Body)
    | Count(t: nat)
    | Mark(t: nat)
    | MarkOnly(uid: Uid)
    // timer
    | Fire
    | Visit(order: seq<Uid>)
    | LoadPending
    | PushWake
    | PushBatch
    | Remark
    // DB thread
    | Pop
    | Connect(ok: bool)
    | Swap
    | Subtract
    | Write(n: nat, ok: bool)
    | Reconnect(ok: bool)
    | Fetch(ok: bool)
    | Upsert(n: nat, ok: bool)

  function Min(a: nat, b: nat): nat { if a <= b then a else b }

  function MaxBatch(maxBatchUids: nat): nat { if maxBatchUids < 1 then 1 else maxBatchUids }

  lemma NoDupConcat(a: seq<Uid>, b: seq<Uid>)
    requires NoDup(a) && NoDup(b) && forall u :: u in a ==> u !in b
    ensures NoDup(a + b)
  {
    forall i, j | 0 <= i < j < |a + b| ensures (a + b)[i] != (a + b)[j] {
      if i < |a| <= j { assert a[i] in a && b[j - |a|] in b; }
    }
  }

  lemma {:induction false} ListOf(s: set<Uid>) returns (order: seq<Uid>)
    ensures Lists(order, s) && |order| == |s|
  {
    if s == {} {
      order := [];
    } else {
      var u :| u in s;
      var rest := ListOf(s - {u});
      order := [u] + rest;
    }
  }

  /** How many uids the first n shards hold. */
  ghost function DirtyCount(dirty: seq<set<Uid>>, n: nat): nat
    requires n <= |dirty|
  {
    if n == 0 then 0 else DirtyCount(dirty, n - 1) + |dirty[n - 1]|
  }

  ghost predicate Enabled(s: State, step: Step) {
    match step
    case Push(t, _, _) => t < |s.producers| && s.producers[t].Quiet?
    case Count(t) => t < |s.producers| && s.producers[t].Pushed?
    case Mark(t) => t < |s.producers| && s.producers[t].Counted? && |s.dirty| == SHARDS
    case MarkOnly(_) => |s.dirty| == SHARDS
    case Fire => s.timer.Resting?
    case Visit(order) =>
      s.timer.Stealing? && s.timer.next < |s.dirty| == SHARDS && Lists(order, s.dirty[s.timer.next])
    case LoadPending => s.timer.Checking?
    case PushWake => s.timer.Waking?
    case PushBatch => s.timer.Batching? && s.timer.i < |s.timer.uids|
    case Remark =>
      s.timer.Remarking? && s.timer.k < s.timer.end <= |s.timer.uids| && |s.dirty| == SHARDS
    case Pop => s.worker.Parked? && s.queue != []
    case Connect(ok) => s.worker.Connecting? && (s.db.Up() ==> ok)
    case Swap => s.worker.Swapping?
    case Subtract => s.worker.Subtracting?
    case Write(n, ok) => s.worker.Writing? && n <= |s.db.local| && (ok ==> n == |s.db.local|)
    case Reconnect(ok) => s.worker.Reconnecting? && (s.db.Up() ==> ok)
    case Fetch(_) => s.worker.Fetching?
    case Upsert(n, ok) =>
      s.worker.Upserting? && n <= |s.worker.rows| && (ok ==> n == |s.worker.rows|)
  }

  function ShardOf(u: Uid): nat { u % SHARDS }

  /** mark_dirty's lock section. */
  function MarkDirty(s: State, u: Uid): State
    requires |s.dirty| == SHARDS
  {
    var shard := s.dirty[ShardOf(u)];
    s.(dirty := s.dirty[ShardOf(u) := shard + {u}],
       unmarked := s.unmarked - {u},
       acc := if u in shard then s.acc.(merged := s.acc.merged + multiset{u}) else s.acc)
  }

  function Minted(s: State, u: Uid): State {
    s.(acc := s.acc.(minted := s.acc.minted + multiset{u}))
  }

  function EndOfBatch(uids: seq<Uid>, i: nat, maxBatch: nat): nat { Min(|uids|, i + maxBatch) }

  function NextBatch(uids: seq<Uid>, i: nat): Timer {
    if i < |uids| then Batching(uids, i) else Resting
  }

  /** DBWorker::try_push's lock section. */
  function TryPush(queue: seq<Job>, job: Job): (r: (seq<Job>, bool)) {
    if |queue| >= MAX_QUEUE then (queue, false) else (queue + [job], true)
  }

  function SetOf(job: Job): set<Uid> { set u | u in job }

  /** MySQL's row of uid is its newest snapshot. */
  ghost predicate InMysql(s: State, u: Uid) {
    u in s.db.mysql && s.db.mysql[u].ver == LatestVer(s, u)
  }

  ghost function NotStored(s: State, us: set<Uid>): set<Uid> {
    set u | u in us && !InMysql(s, u)
  }

  /** A failure branch of handle_db_job: the job is gone, and with it the marks of its uids. */
  ghost function Dropped(s: State, db: Db, job: Job): State {
    s.(db := db, worker := Parked, unmarked := NotStored(s.(db := db), s.unmarked + SetOf(job)),
       acc := s.acc.(dropped := s.acc.dropped + multiset(job)))
  }

  ghost function Handled(s: State, db: Db, job: Job): State {
    s.(db := db, worker := Parked, unmarked := NotStored(s.(db := db), s.unmarked),
       acc := s.acc.(handled := s.acc.handled + multiset(job)))
  }

  /** The version of uid's newest snapshot among the first n enqueued, 0 if there is none. */
  ghost function Latest(log: seq<Snapshot>, n: nat, u: Uid): (v: nat)
    requires n <= |log|
    ensures v <= n
    ensures v > 0 ==> log[v - 1].uid == u
  {
    if n == 0 then 0 else if log[n - 1].uid == u then n else Latest(log, n - 1, u)
  }

  ghost function LatestVer(s: State, u: Uid): nat { Latest(s.log, |s.log|, u) }

  /** The uids whose newest snapshot is among the rows of a batch that never reached Redis. */
  ghost function NewestAmong(s: State, rows: seq<Snapshot>): set<Uid> {
    set r | r in rows && r.ver == LatestVer(s, r.uid) :: r.uid
  }

  ghost function Apply(s: State, step: Step): State
    requires Enabled(s, step)
  {
    match step
    case Push(t, uid, body) =>
      var snap := Snapshot(uid, |s.log| + 1, body);
      s.(db := EnqueuedDb(s.db, snap), log := s.log + [snap],
         producers := s.producers[t := Pushed(uid)], lost := s.lost - {uid})
    case Count(t) =>
      s.(db := CountedDb(s.db), producers := s.producers[t := Counted(s.producers[t].uid)])
    case Mark(t) =>
      var u := s.producers[t].uid;
      MarkDirty(Minted(s, u), u).(producers := s.producers[t := Quiet])
    case MarkOnly(u) => MarkDirty(Minted(s, u), u)
    case Fire => s.(timer := Stealing(0, []))
    case Visit(order) =>
      var stolen := s.timer.stolen + order;
      var next := s.timer.next + 1;
      s.(dirty := s.dirty[s.timer.next := {}],
         timer := if next < SHARDS then Stealing(next, stolen)
                  else if stolen == [] then Checking
                  else Batching(stolen, 0))
    case LoadPending => s.(timer := if s.db.pending > 0 then Waking else Resting)
    case PushWake => s.(queue := TryPush(s.queue, []).0, timer := Resting)
    case PushBatch =>
      var uids, i := s.timer.uids, s.timer.i;
      var end := EndOfBatch(uids, i, MaxBatch(s.maxBatchUids));
      var (queue, accepted) := TryPush(s.queue, uids[i..end]);
      s.(queue := queue,
         timer := if accepted then NextBatch(uids, i + MaxBatch(s.maxBatchUids))
                  else Remarking(uids, i, end, i))
    case Remark =>
      var uids, i, end, k := s.timer.uids, s.timer.i, s.timer.end, s.timer.k;
      MarkDirty(s, uids[k]).(
        timer := if k + 1 < end then Remarking(uids, i, end, k + 1)
                 else NextBatch(uids, i + MaxBatch(s.maxBatchUids)))
    case Pop => s.(worker := Connecting(s.queue[0]), queue := s.queue[1..])
    case Connect(ok) =>
      var db := ConnectedDb(s.db, ok);
      if ok then s.(db := db, worker := Swapping(s.worker.job)) else Dropped(s, db, s.worker.job)
    case Swap =>
      s.(db := SwappedDb(s.db),
         worker := if s.db.rtQ == [] then Reconnecting(s.worker.job) else Subtracting(s.worker.job))
    case Subtract => s.(db := SubtractedDb(s.db), worker := Writing(s.worker.job))
    case Write(n, ok) =>
      s.(db := WrittenDb(s.db, n, ok), worker := Reconnecting(s.worker.job),
         lost := s.lost + NewestAmong(s, s.db.local[n..]))
    case Reconnect(ok) =>
      var db := ConnectedDb(s.db, ok);
      if !ok then Dropped(s, db, s.worker.job)
      else if s.worker.job == [] then Handled(s, db, [])
      else s.(db := db, worker := Fetching(s.worker.job))
    case Fetch(ok) =>
      var rows := Rows(s.db.redis, s.worker.job);
      if !ok then Dropped(s, s.db.Disconnected(), s.worker.job)
      else if rows == [] then Handled(s, s.db, s.worker.job)
      else s.(worker := Upserting(s.worker.job, rows))
    case Upsert(n, ok) =>
      var db := UpsertedDb(s.db, s.worker.rows, n, ok);
      if ok then Handled(s, db, s.worker.job) else Dropped(s, db, s.worker.job)
  }

  // ---------------------------------------------------------------- runs

  ghost function NoneDirty(): (shards: seq<set<Uid>>)
    ensures |shards| == SHARDS && forall k :: 0 <= k < SHARDS ==> shards[k] == {}
  {
    seq(SHARDS, _ => {})
  }

  /** A fresh system: nothing queued, stores with rows of earlier runs only. */
  ghost predicate Initial(s: State) {
    && s.db.rtQ == [] && s.db.local == [] && s.db.pending == 0 && s.db.redisUp == s.db.mysqlUp
    && (forall u :: u in s.db.redis ==> s.db.redis[u].uid == u && s.db.redis[u].ver == 0)
    && (forall u :: u in s.db.mysql ==> s.db.mysql[u].uid == u && s.db.mysql[u].ver == 0)
    && s.log == []
    && s.dirty == NoneDirty()
    && (forall t :: 0 <= t < |s.producers| ==> s.producers[t].Quiet?)
    && s.timer.Resting? && s.queue == [] && s.worker.Parked?
    && s.lost == {} && s.unmarked == {}
    && s.acc == Account(multiset{}, multiset{}, multiset{}, multiset{})
  }

  ghost predicate ValidRun(s: State, steps: seq<Step>)
    decreases |steps|
  {
    steps == [] || (Enabled(s, steps[0]) && ValidRun(Apply(s, steps[0]), steps[1..]))
  }

  ghost function Run(s: State, steps: seq<Step>): State
    requires ValidRun(s, steps)
    decreases |steps|
  {
    if steps == [] then s else Run(Apply(s, steps[0]), steps[1..])
  }

  /** Nothing is left to do for any thread, apart from snapshots nobody marked. */
  ghost predicate Drained(s: State) {
    && (forall k :: 0 <= k < |s.dirty| ==> s.dirty[k] == {})
    && (forall t :: 0 <= t < |s.producers| ==> s.producers[t].Quiet?)
    && s.timer.Resting? && s.queue == [] && s.worker.Parked?
  }
}
