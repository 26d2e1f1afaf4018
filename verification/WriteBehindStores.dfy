/** Where every snapshot is, and why neither store ever goes back to an older row. */
module WriteBehindStores {
  import opened WriteBehindModel

  // ---------------------------------------------------------------- the invariant

  /** Snapshots swapped out of the queue that have not been offered to Redis yet. */
  ghost function InFlight(db: Db, worker: Worker): seq<Snapshot> {
    if worker.Subtracting? || worker.Writing? then db.local else []
  }

  ghost predicate NeedsConnections(worker: Worker) {
    !worker.Parked? && !worker.Connecting? && !worker.Reconnecting?
  }

  ghost predicate LogNumbered(log: seq<Snapshot>) {
    forall i :: 0 <= i < |log| ==> log[i].ver == i + 1
  }

  /** The first n of the log were offered to Redis; then come the in-flight ones, then the queue. */
  ghost predicate Layout(db: Db, log: seq<Snapshot>, worker: Worker, n: nat) {
    && n + |InFlight(db, worker)| + |db.rtQ| == |log|
    && log[n..n + |InFlight(db, worker)|] == InFlight(db, worker)
    && log[n + |InFlight(db, worker)|..] == db.rtQ
  }

  ghost function Offered(db: Db, log: seq<Snapshot>, worker: Worker): int {
    |log| - |db.rtQ| - |InFlight(db, worker)|
  }

  /** Every row is the snapshot its version names, among the first n. */
  ghost predicate StoreFromLog(m: Store, log: seq<Snapshot>, n: nat)
    requires n <= |log|
  {
    forall u :: u in m ==>
      m[u].uid == u && m[u].ver <= n && (m[u].ver > 0 ==> m[u] == log[m[u].ver - 1])
  }

  ghost predicate Behind(mysql: Store, redis: Store) {
    forall u :: u in mysql && mysql[u].ver > 0 ==> u in redis && mysql[u].ver <= redis[u].ver
  }

  ghost predicate RowsFrom(rows: seq<Snapshot>, redis: Store) {
    forall r :: r in rows ==> r.uid in redis && r == redis[r.uid]
  }

  ghost predicate InRedis(db: Db, u: Uid, v: nat) { u in db.redis && db.redis[u].ver == v }

  /** A uid is lost exactly when its newest snapshot was offered to Redis and Redis does not hold it. */
  ghost predicate LostFits(db: Db, log: seq<Snapshot>, n: nat, lost: set<Uid>, u: Uid) {
    var v := Latest(log, |log|, u);
    v > 0 ==> (u in lost <==> v <= n && !InRedis(db, u, v))
  }

  ghost predicate LostExact(db: Db, log: seq<Snapshot>, n: nat, lost: set<Uid>) {
    forall u :: LostFits(db, log, n, lost, u)
  }

  ghost predicate StoresInv(s: State) {
    var n := Offered(s.db, s.log, s.worker);
    && s.db.redisUp == s.db.mysqlUp
    && (NeedsConnections(s.worker) ==> s.db.Up())
    && LogNumbered(s.log)
    && n >= 0 && Layout(s.db, s.log, s.worker, n)
    && StoreFromLog(s.db.redis, s.log, n)
    && StoreFromLog(s.db.mysql, s.log, n)
    && Behind(s.db.mysql, s.db.redis)
    && (s.worker.Upserting? ==> RowsFrom(s.worker.rows, s.db.redis))
    && LostExact(s.db, s.log, n, s.lost)
  }

  // ---------------------------------------------------------------- Latest

  lemma {:induction false} LatestPrefix(log: seq<Snapshot>, more: seq<Snapshot>, n: nat, u: Uid)
    requires n <= |log|
    ensures Latest(log + more, n, u) == Latest(log, n, u)
  {
    if n > 0 { LatestPrefix(log, more, n - 1, u); }
  }

  lemma {:induction false} LatestBelow(log: seq<Snapshot>, k: nat, n: nat, u: Uid)
    requires k <= n <= |log|
    ensures Latest(log, k, u) <= Latest(log, n, u)
    ensures Latest(log, n, u) <= k ==> Latest(log, n, u) == Latest(log, k, u)
  {
    if k < n { LatestBelow(log, k, n - 1, u); }
  }

  lemma {:induction false} LatestIsLast(log: seq<Snapshot>, n: nat, u: Uid, i: nat)
    requires i < n <= |log| && log[i].uid == u
    ensures Latest(log, n, u) >= i + 1
  {
    if i + 1 < n { LatestIsLast(log, n - 1, u, i); }
  }

  // ---------------------------------------------------------------- batches

  /** A Redis batch leaves each uid with its newest snapshot of the batch. */
  lemma {:induction false} ApplySegment(m: Store, log: seq<Snapshot>, a: nat, b: nat, u: Uid)
    requires a <= b <= |log|
    ensures var m' := ApplyAll(m, log[a..b]);
      if Latest(log, b, u) > a then u in m' && m'[u] == log[Latest(log, b, u) - 1]
      else (u in m' <==> u in m) && (u in m ==> m'[u] == m[u])
  {
    if a < b {
      assert log[a..b][..b - 1 - a] == log[a..b - 1];
      ApplySegment(m, log, a, b - 1, u);
    }
  }

  /** An upsert of rows read from Redis copies Redis for exactly the uids it has rows for. */
  lemma {:induction false} ApplyRows(m: Store, rows: seq<Snapshot>, redis: Store, u: Uid)
    requires RowsFrom(rows, redis)
    ensures var m' := ApplyAll(m, rows);
      if exists r :: r in rows && r.uid == u then u in redis && u in m' && m'[u] == redis[u]
      else (u in m' <==> u in m) && (u in m ==> m'[u] == m[u])
  {
    if rows != [] {
      var init, last := rows[..|rows| - 1], rows[|rows| - 1];
      assert forall r :: r in rows <==> r in init || r == last;
      ApplyRows(m, init, redis, u);
    }
  }

  lemma {:induction false} RowsAreStored(redis: Store, job: Job)
    requires forall u :: u in redis ==> redis[u].uid == u
    ensures RowsFrom(Rows(redis, job), redis)
    ensures forall u :: u in job && u in redis ==> redis[u] in Rows(redis, job)
  {
    if job != [] { RowsAreStored(redis, job[1..]); }
  }

  // ---------------------------------------------------------------- preservation

  lemma StoresInit(s: State)
    requires Initial(s)
    ensures StoresInv(s)
  {
  }

  lemma LayoutPush(db: Db, log: seq<Snapshot>, worker: Worker, n: nat, snap: Snapshot)
    requires Layout(db, log, worker, n)
    ensures Layout(EnqueuedDb(db, snap), log + [snap], worker, n)
  {
    var q := |log| - |db.rtQ|;
    assert (log + [snap])[q..] == log[q..] + [snap];
    assert (log + [snap])[n..q] == log[n..q];
  }

  lemma LostPush(db: Db, log: seq<Snapshot>, n: nat, lost: set<Uid>, snap: Snapshot)
    requires LostExact(db, log, n, lost) && n <= |log|
    ensures LostExact(EnqueuedDb(db, snap), log + [snap], n, lost - {snap.uid})
  {
    forall u ensures LostFits(EnqueuedDb(db, snap), log + [snap], n, lost - {snap.uid}, u) {
      LatestPrefix(log, [snap], |log|, u);
      assert LostFits(db, log, n, lost, u);
    }
  }

  lemma StoresGrow(m: Store, log: seq<Snapshot>, n: nat, snap: Snapshot)
    requires n <= |log| && StoreFromLog(m, log, n)
    ensures StoreFromLog(m, log + [snap], n)
  {
  }

  lemma NumberedPush(log: seq<Snapshot>, snap: Snapshot)
    requires LogNumbered(log) && snap.ver == |log| + 1
    ensures LogNumbered(log + [snap])
  {
  }

  /** The invariant after a push, from what the push changed. */
  lemma StoresPushed(s: State, s': State, n: nat)
    requires StoresInv(s) && n == Offered(s'.db, s'.log, s'.worker)
    requires s'.worker == s.worker && s'.db == s.db.(rtQ := s'.db.rtQ)
    requires LogNumbered(s'.log) && Layout(s'.db, s'.log, s'.worker, n) && LostExact(s'.db, s'.log, n, s'.lost)
    requires n <= |s'.log| && StoreFromLog(s'.db.redis, s'.log, n) && StoreFromLog(s'.db.mysql, s'.log, n)
    ensures StoresInv(s')
  {
  }

  lemma StoresPush(s: State, step: Step)
    requires step.Push? && Enabled(s, step) && StoresInv(s)
    ensures StoresInv(Apply(s, step))
  {
    var n := Offered(s.db, s.log, s.worker);
    var snap := Snapshot(step.uid, |s.log| + 1, step.body);
    LayoutPush(s.db, s.log, s.worker, n, snap);
    LostPush(s.db, s.log, n, s.lost, snap);
    StoresGrow(s.db.redis, s.log, n, snap);
    StoresGrow(s.db.mysql, s.log, n, snap);
    NumberedPush(s.log, snap);
    StoresPushed(s, Apply(s, step), n);
  }

  lemma StoresSwap(s: State, step: Step)
    requires step.Swap? && Enabled(s, step) && StoresInv(s)
    ensures StoresInv(Apply(s, step))
  {
    SameLost(s, Apply(s, step));
  }

  /** What a batch did to one uid's row: the newest of log[a..mid], or nothing. */
  ghost predicate WrittenRow(redis: Store, redis': Store, log: seq<Snapshot>, a: nat, mid: nat, u: Uid)
    requires mid <= |log|
  {
    var v := Latest(log, mid, u);
    if v > a then u in redis' && redis'[u] == log[v - 1]
    else (u in redis' <==> u in redis) && (u in redis ==> redis'[u] == redis[u])
  }

  ghost predicate WrittenRows(redis: Store, redis': Store, log: seq<Snapshot>, a: nat, mid: nat)
    requires mid <= |log|
  {
    forall u :: WrittenRow(redis, redis', log, a, mid, u)
  }

  /** The uids whose newest snapshot is in log[mid..b], the part of a batch that never got there. */
  ghost predicate LostIn(log: seq<Snapshot>, mid: nat, b: nat, gone: set<Uid>, u: Uid) {
    u in gone <==> mid < Latest(log, |log|, u) <= b
  }

  lemma NewestAmongRest(s: State, mid: nat, b: nat)
    requires LogNumbered(s.log) && mid <= b <= |s.log|
    ensures forall u :: LostIn(s.log, mid, b, NewestAmong(s, s.log[mid..b]), u)
  {
    var rest := s.log[mid..b];
    forall u ensures LostIn(s.log, mid, b, NewestAmong(s, rest), u) {
      var v := LatestVer(s, u);
      if mid < v <= b {
        assert rest[v - 1 - mid] == s.log[v - 1];
        assert s.log[v - 1] in rest;
      }
    }
  }

  lemma LostFitsWrite(db: Db, db': Db, log: seq<Snapshot>, a: nat, mid: nat, b: nat,
                      lost: set<Uid>, gone: set<Uid>, u: Uid)
    requires a <= mid <= b <= |log| && LogNumbered(log)
    requires StoreFromLog(db.redis, log, a)
    requires WrittenRow(db.redis, db'.redis, log, a, mid, u)
    requires LostFits(db, log, a, lost, u) && LostIn(log, mid, b, gone, u)
    ensures LostFits(db', log, b, lost + gone, u)
  {
    LatestBelow(log, mid, |log|, u);
  }

  lemma WriteEffects(db: Db, db': Db, log: seq<Snapshot>, a: nat, mid: nat, b: nat,
                     lost: set<Uid>, gone: set<Uid>)
    requires a <= mid <= b <= |log| && LogNumbered(log)
    requires StoreFromLog(db.redis, log, a) && LostExact(db, log, a, lost)
    requires db'.redis == ApplyAll(db.redis, log[a..mid])
    requires forall u :: LostIn(log, mid, b, gone, u)
    ensures WrittenRows(db.redis, db'.redis, log, a, mid)
    ensures LostExact(db', log, b, lost + gone)
  {
    forall u
      ensures WrittenRow(db.redis, db'.redis, log, a, mid, u) && LostFits(db', log, b, lost + gone, u)
    {
      ApplySegment(db.redis, log, a, mid, u);
      assert LostFits(db, log, a, lost, u) && LostIn(log, mid, b, gone, u);
      LostFitsWrite(db, db', log, a, mid, b, lost, gone, u);
    }
  }

  lemma LocalSplit(s: State, n: nat)
    requires s.worker.Writing? && n <= |s.db.local| && StoresInv(s)
    ensures var a := Offered(s.db, s.log, s.worker);
      s.db.local[..n] == s.log[a..a + n] && s.db.local[n..] == s.log[a + n..a + |s.db.local|]
  {
  }

  lemma WrittenParts(s: State, n: nat, ok: bool)
    requires s.worker.Writing? && n <= |s.db.local| && StoresInv(s)
    ensures var db', b := WrittenDb(s.db, n, ok), Offered(s.db, s.log, s.worker) + |s.db.local|;
      && StoreFromLog(db'.redis, s.log, b) && Behind(s.db.mysql, db'.redis)
      && LostExact(db', s.log, b, s.lost + NewestAmong(s, s.db.local[n..]))
  {
    var a := Offered(s.db, s.log, s.worker);
    var b := a + |s.db.local|;
    LocalSplit(s, n);
    NewestAmongRest(s, a + n, b);
    WrittenBatch(s.db, WrittenDb(s.db, n, ok), s.log, a, a + n, b, s.lost, NewestAmong(s, s.log[a + n..b]));
  }

  lemma WrittenBatch(db: Db, db': Db, log: seq<Snapshot>, a: nat, mid: nat, b: nat,
                     lost: set<Uid>, gone: set<Uid>)
    requires a <= mid <= b <= |log| && LogNumbered(log)
    requires StoreFromLog(db.redis, log, a) && LostExact(db, log, a, lost) && Behind(db.mysql, db.redis)
    requires db'.redis == ApplyAll(db.redis, log[a..mid])
    requires forall u :: LostIn(log, mid, b, gone, u)
    ensures StoreFromLog(db'.redis, log, b) && Behind(db.mysql, db'.redis)
    ensures LostExact(db', log, b, lost + gone)
  {
    WriteEffects(db, db', log, a, mid, b, lost, gone);
    WrittenStore(db.redis, db'.redis, db.mysql, log, a, mid, b);
  }

  lemma StoresWrite(s: State, step: Step)
    requires step.Write? && Enabled(s, step) && StoresInv(s)
    ensures StoresInv(Apply(s, step))
  {
    WrittenParts(s, step.n, step.ok);
    StoresWritten(s, Apply(s, step));
  }

  /** The invariant after a batch, from what the batch changed. */
  lemma StoresWritten(s: State, s': State)
    requires s.worker.Writing? && StoresInv(s)
    requires s'.worker.Reconnecting? && s'.log == s.log
    requires s'.db.redisUp == s'.db.mysqlUp && s'.db.rtQ == s.db.rtQ && s'.db.mysql == s.db.mysql
    requires var b := Offered(s.db, s.log, s.worker) + |s.db.local|;
      && StoreFromLog(s'.db.redis, s.log, b) && Behind(s.db.mysql, s'.db.redis)
      && LostExact(s'.db, s.log, b, s'.lost)
    ensures StoresInv(s')
  {
    assert InFlight(s'.db, s'.worker) == [];
  }

  lemma WrittenStore(redis: Store, redis': Store, mysql: Store, log: seq<Snapshot>, a: nat, mid: nat, b: nat)
    requires a <= mid <= b <= |log| && LogNumbered(log)
    requires StoreFromLog(redis, log, a) && Behind(mysql, redis)
    requires WrittenRows(redis, redis', log, a, mid)
    ensures StoreFromLog(redis', log, b) && Behind(mysql, redis')
  {
    forall u | u in redis'
      ensures var r := redis'[u]; r.uid == u && r.ver <= b && (r.ver > 0 ==> r == log[r.ver - 1])
    {
      assert WrittenRow(redis, redis', log, a, mid, u);
    }
    forall u | u in mysql && mysql[u].ver > 0
      ensures u in redis' && mysql[u].ver <= redis'[u].ver
    {
      assert WrittenRow(redis, redis', log, a, mid, u);
    }
  }

  lemma StoresFetch(s: State, step: Step)
    requires step.Fetch? && Enabled(s, step) && StoresInv(s)
    ensures StoresInv(Apply(s, step))
  {
    var s' := Apply(s, step);
    RowsAreStored(s.db.redis, s.worker.job);
    SameLost(s, s');
    assert s'.db.redis == s.db.redis && s'.db.mysql == s.db.mysql && s'.db.rtQ == s.db.rtQ && s'.log == s.log;
    assert s'.worker.Parked? || s'.worker == Upserting(s.worker.job, Rows(s.db.redis, s.worker.job));
    assert Layout(s'.db, s'.log, s'.worker, Offered(s.db, s.log, s.worker));
  }

  lemma StoresUpsert(s: State, step: Step)
    requires step.Upsert? && Enabled(s, step) && StoresInv(s)
    ensures StoresInv(Apply(s, step))
  {
    UpsertedRows(s, step);
    var s' := Apply(s, step);
    SameLost(s, s');
    assert s'.db.redis == s.db.redis && s'.db.rtQ == s.db.rtQ && s'.log == s.log && s'.worker.Parked?;
    var n := Offered(s.db, s.log, s.worker);
    assert Layout(s'.db, s'.log, s'.worker, n);
    UpsertedStore(s.db.mysql, s'.db.mysql, s.db.redis, s.log, n);
  }

  lemma UpsertedStore(m: Store, m': Store, redis: Store, log: seq<Snapshot>, n: nat)
    requires n <= |log| && StoreFromLog(m, log, n) && StoreFromLog(redis, log, n) && Behind(m, redis)
    requires forall u :: u in m' ==> (u in m && m'[u] == m[u]) || (u in redis && m'[u] == redis[u])
    ensures StoreFromLog(m', log, n) && Behind(m', redis)
  {
  }

  /** After any upsert, successful or not, every MySQL row is the old one or the Redis one. */
  lemma UpsertedRows(s: State, step: Step)
    requires step.Upsert? && Enabled(s, step) && StoresInv(s)
    ensures var m' := Apply(s, step).db.mysql; forall u ::
      (u in m' ==> (u in s.db.mysql && m'[u] == s.db.mysql[u]) || (u in s.db.redis && m'[u] == s.db.redis[u]))
      && (u in s.db.mysql ==> u in m')
  {
    var rows := s.worker.rows[..step.n];
    assert RowsFrom(rows, s.db.redis) by {
      assert forall r :: r in rows ==> r in s.worker.rows;
    }
    var m' := Apply(s, step).db.mysql;
    forall u
      ensures u in m' ==>
        (u in s.db.mysql && m'[u] == s.db.mysql[u]) || (u in s.db.redis && m'[u] == s.db.redis[u])
      ensures u in s.db.mysql ==> u in m'
    {
      ApplyRows(s.db.mysql, rows, s.db.redis, u);
    }
  }

  /** Steps of the field threads and the timer other than Push leave the stores alone. */
  lemma StoresElsewhere(s: State, step: Step)
    requires Enabled(s, step) && StoresInv(s) && !step.Push?
    requires step.Count? || step.Mark? || step.MarkOnly? || step.Fire? || step.Visit? || step.LoadPending?
      || step.PushWake? || step.PushBatch? || step.Remark?
    ensures StoresInv(Apply(s, step))
  {
    var s' := Apply(s, step);
    assert s'.worker == s.worker && s'.log == s.log && s'.lost == s.lost;
    assert s'.db == s.db.(pending := s'.db.pending);
    assert InFlight(s'.db, s'.worker) == InFlight(s.db, s.worker);
    SameLost(s, s');
  }

  lemma SameLost(s: State, s': State)
    requires StoresInv(s) && s'.log == s.log && s'.lost == s.lost && s'.db.redis == s.db.redis
    requires Offered(s'.db, s'.log, s'.worker) == Offered(s.db, s.log, s.worker)
    ensures LostExact(s'.db, s'.log, Offered(s'.db, s'.log, s'.worker), s'.lost)
  {
    var n := Offered(s.db, s.log, s.worker);
    forall u ensures LostFits(s'.db, s'.log, n, s'.lost, u) {
      assert LostFits(s.db, s.log, n, s.lost, u);
    }
  }

  /** The DB thread's steps outside the batch writes. */
  lemma StoresConnections(s: State, step: Step)
    requires Enabled(s, step) && StoresInv(s)
    requires step.Pop? || step.Connect? || step.Subtract? || step.Reconnect?
    ensures StoresInv(Apply(s, step))
  {
    SameLost(s, Apply(s, step));
  }

  lemma StoresStep(s: State, step: Step)
    requires Enabled(s, step) && StoresInv(s)
    ensures StoresInv(Apply(s, step))
  {
    match step {
      case Push(_, _, _) => StoresPush(s, step);
      case Swap => StoresSwap(s, step);
      case Write(_, _) => StoresWrite(s, step);
      case Fetch(_) => StoresFetch(s, step);
      case Upsert(_, _) => StoresUpsert(s, step);
      case Pop => StoresConnections(s, step);
      case Connect(_) => StoresConnections(s, step);
      case Subtract => StoresConnections(s, step);
      case Reconnect(_) => StoresConnections(s, step);
      case _ => StoresElsewhere(s, step);
    }
  }

  // ---------------------------------------------------------------- no regression

  /** Every row stays stored, and no row is replaced by an older one. */
  ghost predicate NoOlder(m: Store, m': Store) {
    forall u :: u in m ==> u in m' && m[u].ver <= m'[u].ver
  }

  lemma NoOlderBatch(m: Store, log: seq<Snapshot>, a: nat, b: nat)
    requires a <= b <= |log| && LogNumbered(log) && StoreFromLog(m, log, a)
    ensures NoOlder(m, ApplyAll(m, log[a..b]))
  {
    var m' := ApplyAll(m, log[a..b]);
    forall u | u in m ensures u in m' && m[u].ver <= m'[u].ver { ApplySegment(m, log, a, b, u); }
  }

  lemma NoRegressionWrite(s: State, step: Step)
    requires step.Write? && Enabled(s, step) && StoresInv(s)
    ensures NoOlder(s.db.redis, Apply(s, step).db.redis)
  {
    var a := Offered(s.db, s.log, s.worker);
    LocalSplit(s, step.n);
    NoOlderBatch(s.db.redis, s.log, a, a + step.n);
    assert Apply(s, step).db.redis == ApplyAll(s.db.redis, s.db.local[..step.n]);
  }

  lemma NoRegressionStep(s: State, step: Step)
    requires Enabled(s, step) && StoresInv(s)
    ensures NoOlder(s.db.redis, Apply(s, step).db.redis)
    ensures NoOlder(s.db.mysql, Apply(s, step).db.mysql)
  {
    if step.Write? {
      NoRegressionWrite(s, step);
    } else if step.Upsert? {
      UpsertedRows(s, step);
    }
  }

  lemma {:induction false} StoresRun(s: State, steps: seq<Step>)
    requires StoresInv(s) && ValidRun(s, steps)
    ensures StoresInv(Run(s, steps))
    decreases |steps|
  {
    if steps != [] {
      StoresStep(s, steps[0]);
      StoresRun(Apply(s, steps[0]), steps[1..]);
    }
  }

  /** In every interleaving, whatever fails: between any reachable state and any later one neither
      Redis nor MySQL replaces a row by an older one, and MySQL is never ahead of Redis. */
  lemma {:induction false} NoRegression(init: State, before: seq<Step>, after: seq<Step>)
    requires Initial(init) && ValidRun(init, before) && ValidRun(Run(init, before), after)
    ensures var s, s' := Run(init, before), Run(Run(init, before), after);
      && NoOlder(s.db.redis, s'.db.redis) && NoOlder(s.db.mysql, s'.db.mysql)
      && Behind(s'.db.mysql, s'.db.redis)
  {
    StoresInit(init);
    StoresRun(init, before);
    NoRegressionFrom(Run(init, before), after);
  }

  lemma {:induction false} NoRegressionFrom(s: State, steps: seq<Step>)
    requires StoresInv(s) && ValidRun(s, steps)
    ensures NoOlder(s.db.redis, Run(s, steps).db.redis)
    ensures NoOlder(s.db.mysql, Run(s, steps).db.mysql)
    ensures StoresInv(Run(s, steps))
    decreases |steps|
  {
    if steps != [] {
      StoresStep(s, steps[0]);
      NoRegressionStep(s, steps[0]);
      NoRegressionFrom(Apply(s, steps[0]), steps[1..]);
    }
  }
}
