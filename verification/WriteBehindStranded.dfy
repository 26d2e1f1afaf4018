/** What happens to an update that no thread carries any more: nothing. */
module WriteBehindStranded {
  import opened WriteBehindModel
  import opened WriteBehindStores
  import opened WriteBehindDelivery

  /** No new snapshot of u, and no mark without one. */
  ghost predicate Untouched(steps: seq<Step>, u: Uid) {
    forall i :: 0 <= i < |steps| ==> !Touches(steps[i], u)
  }

  predicate Touches(step: Step, u: Uid) {
    (step.Push? && step.uid == u) || (step.MarkOnly? && step.uid == u)
  }

  /** Nobody carries u, and MySQL does not have its newest snapshot. */
  ghost predicate Stranded(s: State, u: Uid)
    requires ShardsInv(s)
  {
    LatestVer(s, u) > 0 && !Carried(s, u) && !InMysql(s, u)
  }

  lemma LatestStays(s: State, step: Step, u: Uid)
    requires Enabled(s, step) && !Touches(step, u)
    ensures LatestVer(Apply(s, step), u) == LatestVer(s, u)
  {
    if step.Push? { LatestPrefix(s.log, [Snapshot(step.uid, |s.log| + 1, step.body)], |s.log|, u); }
  }

  // ---------------------------------------------------------------- nobody takes it up

  lemma ProducersStay(s: State, step: Step, u: Uid)
    requires Enabled(s, step) && !Touches(step, u) && !ProducerCarries(s.producers, u)
    ensures !ProducerCarries(Apply(s, step).producers, u)
  {
    var p, p' := s.producers, Apply(s, step).producers;
    forall t | 0 <= t < |p'| ensures p'[t] != Pushed(u) && p'[t] != Counted(u) {
      assert p[t] != Pushed(u) && p[t] != Counted(u);
    }
  }

  lemma ShardsStay(s: State, step: Step, u: Uid)
    requires Enabled(s, step) && !Touches(step, u) && ShardsInv(s) && ShardsInv(Apply(s, step))
    requires !ProducerCarries(s.producers, u) && u !in s.dirty[ShardOf(u)] && u !in TimerHolds(s.timer)
    ensures u !in Apply(s, step).dirty[ShardOf(u)]
  {
    if step.Mark? {
      assert s.producers[step.t] != Counted(u);
    } else if step.Remark? {
      assert TimerHolds(s.timer)[0] == s.timer.uids[s.timer.k];
    }
  }

  lemma VisitStays(s: State, step: Step, u: Uid)
    requires step.Visit? && Enabled(s, step) && ShardsInv(s) && ShardsInv(Apply(s, step))
    requires u !in s.dirty[ShardOf(u)] && u !in TimerHolds(s.timer)
    ensures u !in TimerHolds(Apply(s, step).timer)
  {
    assert u !in s.dirty[s.timer.next];
    var stolen := s.timer.stolen + step.order;
    assert stolen[0..] == stolen;
  }

  lemma TimerStays(s: State, step: Step, u: Uid)
    requires Enabled(s, step) && ShardsInv(s) && ShardsInv(Apply(s, step))
    requires u !in s.dirty[ShardOf(u)] && u !in TimerHolds(s.timer)
    ensures u !in TimerHolds(Apply(s, step).timer)
  {
    match step {
      case Visit(_) => VisitStays(s, step, u);
      case PushBatch => PushBatchHolds(s);
      case Remark => RemarkDrops(s);
      case _ =>
    }
  }

  lemma RemarkDrops(s: State)
    requires Enabled(s, Remark) && ShardsInv(s) && TimerWf(Apply(s, Remark).timer)
    ensures TimerHolds(Apply(s, Remark).timer) == TimerHolds(s.timer)[1..]
  {
  }

  lemma QueueStays(s: State, step: Step, u: Uid)
    requires Enabled(s, step) && ShardsInv(s) && !QueueCarries(s.queue, u) && u !in TimerHolds(s.timer)
    ensures !QueueCarries(Apply(s, step).queue, u)
  {
    var q, q' := s.queue, Apply(s, step).queue;
    if step.PushBatch? { PushBatchHolds(s); }
    forall j | 0 <= j < |q'| ensures u !in q'[j] {
      if step.Pop? { assert q'[j] == q[j + 1]; } else if j < |q| { assert q'[j] == q[j]; }
    }
  }

  // ---------------------------------------------------------------- nor does the job in hand

  lemma WorkerStays(s: State, step: Step, u: Uid)
    requires Enabled(s, step) && !Touches(step, u) && !step.Fetch? && !WorkerCarries(s, u) && !QueueCarries(s.queue, u)
    ensures !WorkerCarries(Apply(s, step), u)
  {
    LatestStays(s, step, u);
    if step.Pop? { assert u !in s.queue[0]; }
  }

  lemma FetchStays(s: State, step: Step, u: Uid)
    requires step.Fetch? && Enabled(s, step) && StoresInv(s) && !WorkerCarries(s, u)
    ensures !WorkerCarries(Apply(s, step), u)
  {
    var rows := Rows(s.db.redis, s.worker.job);
    RowsAreStored(s.db.redis, s.worker.job);
    forall r | r in rows && r.uid == u && u in s.worker.job ensures r.ver != LatestVer(s, u) {
      assert r == s.db.redis[u];
    }
  }

  /** Rows without a newest one of u leave MySQL behind on u. */
  lemma UpsertStays(m: Store, rows: seq<Snapshot>, redis: Store, u: Uid, newest: nat)
    requires RowsFrom(rows, redis) && (forall r :: r in rows && r.uid == u ==> r.ver != newest)
    requires u in m ==> m[u].ver != newest
    ensures var m' := ApplyAll(m, rows); u in m' ==> m'[u].ver != newest
  {
    ApplyRows(m, rows, redis, u);
    if r :| r in rows && r.uid == u { assert redis[u] == r; }
  }

  /** Only upserts write to MySQL. */
  lemma MysqlUntouched(s: State, step: Step)
    requires Enabled(s, step) && !step.Upsert?
    ensures Apply(s, step).db.mysql == s.db.mysql
  {
  }

  lemma MysqlStays(s: State, step: Step, u: Uid)
    requires Enabled(s, step) && !Touches(step, u) && StoresInv(s) && RowsOfJob(s.worker)
    requires !WorkerCarries(s, u) && !InMysql(s, u)
    ensures !InMysql(Apply(s, step), u)
  {
    LatestStays(s, step, u);
    if step.Upsert? { UpsertedBehind(s, step, u); } else { MysqlUntouched(s, step); }
  }

  /** An upsert brings no newest row of a uid that the job in hand does not carry. */
  lemma UpsertedBehind(s: State, step: Step, u: Uid)
    requires step.Upsert? && Enabled(s, step) && StoresInv(s) && RowsOfJob(s.worker)
    requires !WorkerCarries(s, u) && !InMysql(s, u)
    ensures !InMysql(Apply(s, step), u)
  {
    var rows := s.worker.rows[..step.n];
    forall r | r in rows ensures r in s.worker.rows && (r.uid == u ==> r.ver != LatestVer(s, u)) {
      assert r in s.worker.rows && r.uid in s.worker.job;
    }
    UpsertStays(s.db.mysql, rows, s.db.redis, u, LatestVer(s, u));
    assert Apply(s, step).log == s.log && Apply(s, step).db.mysql == ApplyAll(s.db.mysql, rows);
  }

  lemma StrandedStep(s: State, step: Step, u: Uid)
    requires Enabled(s, step) && !Touches(step, u) && StoresInv(s) && ShardsInv(s) && RowsOfJob(s.worker) && Stranded(s, u)
    ensures ShardsInv(Apply(s, step)) && Stranded(Apply(s, step), u)
  {
    ShardsStep(s, step);
    LatestStays(s, step, u);
    ProducersStay(s, step, u);
    ShardsStay(s, step, u);
    TimerStays(s, step, u);
    QueueStays(s, step, u);
    if step.Fetch? { FetchStays(s, step, u); } else { WorkerStays(s, step, u); }
    MysqlStays(s, step, u);
  }

  /** Once nobody carries u and MySQL does not have its newest snapshot, no continuation, failed or
      not, brings it there without a new snapshot or mark of u. */
  lemma {:induction false} StrandedForever(s: State, steps: seq<Step>, u: Uid)
    requires StoresInv(s) && ShardsInv(s) && RowsOfJob(s.worker) && Stranded(s, u)
    requires ValidRun(s, steps) && Untouched(steps, u)
    ensures ShardsInv(Run(s, steps)) && Stranded(Run(s, steps), u)
    decreases |steps|
  {
    if steps != [] {
      StrandedStep(s, steps[0], u);
      StoresStep(s, steps[0]);
      RowsStep(s, steps[0]);
      StrandedForever(Apply(s, steps[0]), steps[1..], u);
    }
  }
}
