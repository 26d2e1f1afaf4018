/** From every reachable state the threads can finish: a schedule without failures and without new
    game activity drains everything. And one failed call is enough to strand an update for good. */
module WriteBehindDrain {
  import opened WriteBehindModel
  import opened WriteBehindStores
  import opened WriteBehindDelivery
  import opened WriteBehindStranded

  // ---------------------------------------------------------------- composing runs

  lemma {:induction false} RunAppend(s: State, a: seq<Step>, b: seq<Step>)
    requires ValidRun(s, a) && ValidRun(Run(s, a), b)
    ensures ValidRun(s, a + b) && Run(s, a + b) == Run(Run(s, a), b)
    decreases |a|
  {
    if a == [] {
      assert a + b == b;
    } else {
      assert (a + b)[1..] == a[1..] + b;
      RunAppend(Apply(s, a[0]), a[1..], b);
    }
  }

  lemma RunSnoc(s: State, steps: seq<Step>, step: Step)
    requires ValidRun(s, steps) && Enabled(Run(s, steps), step)
    ensures ValidRun(s, steps + [step]) && Run(s, steps + [step]) == Apply(Run(s, steps), step)
  {
    assert ValidRun(Apply(Run(s, steps), step), [step][1..]);
    assert Run(Run(s, steps), [step]) == Apply(Run(s, steps), step);
    RunAppend(s, steps, [step]);
  }

  // ---------------------------------------------------------------- a measure of the work left

  ghost function ProducerWork(producers: seq<Producer>): nat {
    if producers == [] then 0
    else ProducerWork(producers[..|producers| - 1]) + StepsLeft(producers[|producers| - 1])
  }

  function StepsLeft(p: Producer): nat {
    match p
    case Quiet => 0
    case Counted(_) => 1
    case Pushed(_) => 2
  }

  ghost function DirtyWork(s: State): nat
    requires ShardsInv(s)
  {
    DirtyCount(s.dirty, SHARDS) + if s.timer.Remarking? then s.timer.end - s.timer.k else 0
  }

  ghost predicate DirtyFrom(dirty: seq<set<Uid>>, next: nat) {
    exists k :: next <= k < |dirty| && dirty[k] != {}
  }

  /** Ranks the timer's positions so that each of its steps that moves no uid out of a shard goes down. */
  ghost function TimerRank(s: State): nat
    requires ShardsInv(s)
  {
    match s.timer
    case Resting => if DirtyFrom(s.dirty, 0) then 100 else 0
    case Waking => 140
    case Checking => 150
    case Stealing(next, stolen) =>
      if DirtyFrom(s.dirty, next) then SHARDS - next else 2000 + |stolen| + SHARDS - next
    case t => 1000 + |TimerHolds(t)|
  }

  ghost function WorkerRank(worker: Worker): nat {
    match worker
    case Parked => 0
    case Upserting(_, _) => 1
    case Fetching(_) => 2
    case Reconnecting(_) => 3
    case Writing(_) => 4
    case Subtracting(_) => 5
    case Swapping(_) => 6
    case Connecting(_) => 7
  }

  ghost predicate Shrinks(s': State, s: State)
    requires ShardsInv(s) && ShardsInv(s')
  {
    var p, p' := ProducerWork(s.producers), ProducerWork(s'.producers);
    var d, d', t, t' := DirtyWork(s), DirtyWork(s'), TimerRank(s), TimerRank(s');
    var q, q', w, w' := |s.queue|, |s'.queue|, WorkerRank(s.worker), WorkerRank(s'.worker);
    p' < p || (p' == p && (d' < d || (d' == d && (t' < t || (t' == t && (q' < q || (q' == q && w' < w)))))))
  }

  lemma {:induction false} ProducerWorkUpdate(producers: seq<Producer>, t: nat)
    requires t < |producers| && !producers[t].Quiet?
    ensures producers[t].Pushed? ==>
      ProducerWork(producers[t := Counted(producers[t].uid)]) < ProducerWork(producers)
    ensures ProducerWork(producers[t := Quiet]) < ProducerWork(producers)
  {
    var init := producers[..|producers| - 1];
    if t == |init| {
      assert producers[t := Quiet][..t] == init;
      if producers[t].Pushed? { assert producers[t := Counted(producers[t].uid)][..t] == init; }
    } else {
      ProducerWorkUpdate(init, t);
      assert producers[t := Quiet][..|init|] == init[t := Quiet];
      if producers[t].Pushed? {
        assert producers[t := Counted(producers[t].uid)][..|init|] == init[t := Counted(producers[t].uid)];
      }
    }
  }

  lemma {:induction false} DirtyCountUpdate(dirty: seq<set<Uid>>, n: nat, k: nat, shard: set<Uid>)
    requires n <= |dirty| && k < |dirty|
    ensures DirtyCount(dirty[k := shard], n) ==
      DirtyCount(dirty, n) + if k < n then |shard| - |dirty[k]| else 0
  {
    if n > 0 { DirtyCountUpdate(dirty, n - 1, k, shard); }
  }

  // ---------------------------------------------------------------- one step of the schedule

  /** A step that neither fails nor brings new snapshots or marks from the game. */
  ghost predicate Finishing(step: Step) {
    FailureFree([step]) && !step.Push? && !step.MarkOnly?
  }

  lemma WorkerStep(s: State) returns (step: Step)
    requires ShardsInv(s) && !s.worker.Parked?
    ensures Enabled(s, step) && Finishing(step)
    ensures ShardsInv(Apply(s, step)) && Shrinks(Apply(s, step), s)
  {
    match s.worker {
      case Connecting(_) => step := Connect(true);
      case Swapping(_) => step := Swap;
      case Subtracting(_) => step := Subtract;
      case Writing(_) => step := Write(|s.db.local|, true);
      case Reconnecting(_) => step := Reconnect(true);
      case Fetching(_) => step := Fetch(true);
      case Upserting(_, rows) => step := Upsert(|rows|, true);
    }
    ShardsStep(s, step);
    WorkerOnly(s, step);
    assert DirtyWork(Apply(s, step)) == DirtyWork(s);
    assert TimerRank(Apply(s, step)) == TimerRank(s);
  }

  /** The DB thread's steps on a job touch neither the timer nor the field threads. */
  lemma WorkerOnly(s: State, step: Step)
    requires Enabled(s, step) && !s.worker.Parked?
    requires step.Connect? || step.Swap? || step.Subtract? || step.Write? || step.Reconnect?
      || step.Fetch? || step.Upsert?
    ensures var s' := Apply(s, step);
      && s'.timer == s.timer && s'.dirty == s.dirty && s'.producers == s.producers && s'.queue == s.queue
      && WorkerRank(s'.worker) < WorkerRank(s.worker)
  {
  }

  lemma ProducerStep(s: State, t: nat) returns (step: Step)
    requires ShardsInv(s) && t < |s.producers| && !s.producers[t].Quiet?
    ensures Enabled(s, step) && Finishing(step)
    ensures ShardsInv(Apply(s, step)) && Shrinks(Apply(s, step), s)
  {
    step := if s.producers[t].Pushed? then Count(t) else Mark(t);
    ShardsStep(s, step);
    ProducerWorkUpdate(s.producers, t);
  }

  lemma VisitStep(s: State) returns (step: Step)
    requires ShardsInv(s) && s.timer.Stealing?
    ensures Enabled(s, step) && Finishing(step)
    ensures ShardsInv(Apply(s, step)) && Shrinks(Apply(s, step), s)
  {
    var next := s.timer.next;
    var order := ListOf(s.dirty[next]);
    step := Visit(order);
    ShardsStep(s, step);
    DirtyCountUpdate(s.dirty, SHARDS, next, {});
    var s' := Apply(s, step);
    if s.dirty[next] == {} {
      assert order == [] && s'.dirty == s.dirty;
      if s'.timer.Batching? { assert TimerHolds(s'.timer) == s.timer.stolen; }
    }
  }

  lemma PushBatchStep(s: State)
    requires ShardsInv(s) && s.timer.Batching? && s.queue == []
    ensures Enabled(s, PushBatch) && ShardsInv(Apply(s, PushBatch)) && Shrinks(Apply(s, PushBatch), s)
  {
    ShardsStep(s, PushBatch);
    var s' := Apply(s, PushBatch);
    assert !s'.timer.Remarking?;
    assert s'.dirty == s.dirty && s'.producers == s.producers;
    if s'.timer.Batching? {
      assert |TimerHolds(s'.timer)| < |TimerHolds(s.timer)|;
    }
  }

  lemma RemarkStep(s: State)
    requires ShardsInv(s) && s.timer.Remarking?
    ensures Enabled(s, Remark) && ShardsInv(Apply(s, Remark)) && Shrinks(Apply(s, Remark), s)
  {
    ShardsStep(s, Remark);
    var s', u := Apply(s, Remark), s.timer.uids[s.timer.k];
    var k := ShardOf(u);
    DirtyCountUpdate(s.dirty, SHARDS, k, s.dirty[k] + {u});
    assert s'.dirty == s.dirty[k := s.dirty[k] + {u}] && s'.producers == s.producers;
    assert DirtyWork(s') <= DirtyWork(s);
    assert TimerRank(s') < TimerRank(s);
  }

  lemma TimerStep(s: State) returns (step: Step)
    requires ShardsInv(s) && s.queue == [] && (s.timer.Resting? ==> DirtyFrom(s.dirty, 0))
    ensures Enabled(s, step) && Finishing(step)
    ensures ShardsInv(Apply(s, step)) && Shrinks(Apply(s, step), s)
  {
    match s.timer {
      case Stealing(_, _) => step := VisitStep(s);
      case Batching(_, _) => PushBatchStep(s); step := PushBatch;
      case Remarking(_, _, _, _) => RemarkStep(s); step := Remark;
      case Resting => step := Fire; ShardsStep(s, step);
      case Checking => step := LoadPending; ShardsStep(s, step);
      case Waking => step := PushWake; ShardsStep(s, step);
    }
  }

  lemma NextStep(s: State) returns (step: Step)
    requires ShardsInv(s) && !Drained(s)
    ensures Enabled(s, step) && Finishing(step)
    ensures ShardsInv(Apply(s, step)) && Shrinks(Apply(s, step), s)
  {
    if !s.worker.Parked? {
      step := WorkerStep(s);
    } else if s.queue != [] {
      step := Pop;
      ShardsStep(s, step);
    } else if t :| 0 <= t < |s.producers| && !s.producers[t].Quiet? {
      step := ProducerStep(s, t);
    } else {
      step := TimerStep(s);
    }
  }

  // ---------------------------------------------------------------- the schedule

  ghost predicate AllFinishing(steps: seq<Step>) {
    forall i :: 0 <= i < |steps| ==> Finishing(steps[i])
  }

  /** A finishing step keeps the log and loses nothing. */
  lemma FinishingKeeps(s: State, step: Step)
    requires Enabled(s, step) && Finishing(step)
    ensures Apply(s, step).log == s.log
    ensures Apply(s, step).lost == s.lost && Apply(s, step).unmarked <= s.unmarked
  {
    assert [step][0] == step;
    if step.Write? { assert s.db.local[step.n..] == []; }
  }

  lemma {:induction false} Drain(s: State) returns (steps: seq<Step>)
    requires ShardsInv(s)
    ensures ValidRun(s, steps) && AllFinishing(steps) && Drained(Run(s, steps))
    ensures Run(s, steps).log == s.log && Run(s, steps).lost == s.lost && Run(s, steps).unmarked <= s.unmarked
    decreases ProducerWork(s.producers), DirtyWork(s), TimerRank(s), |s.queue|, WorkerRank(s.worker)
  {
    if Drained(s) {
      steps := [];
    } else {
      var step := NextStep(s);
      FinishingKeeps(s, step);
      var rest := Drain(Apply(s, step));
      steps := [step] + rest;
      assert steps[1..] == rest;
    }
  }

  /** No interleaving, failed or not, can wedge the pipeline: from every reachable state some
      failure-free continuation without new game activity drains everything, and then every uid whose
      newest snapshot and mark survived so far is up to date in MySQL. */
  lemma AlwaysRecoverable(init: State, before: seq<Step>) returns (after: seq<Step>)
    requires Initial(init) && ValidRun(init, before)
    ensures ValidRun(Run(init, before), after) && AllFinishing(after)
    ensures var s, s' := Run(init, before), Run(Run(init, before), after);
      && Drained(s') && s'.log == s.log
      && forall u :: LatestVer(s, u) > 0 && u !in s.lost && u !in s.unmarked ==> InMysql(s', u)
  {
    var s := Run(init, before);
    DeliveryInit(init);
    DeliveryRun(init, before);
    after := Drain(s);
    RunAppend(init, before, after);
    forall u | LatestVer(s, u) > 0 && u !in s.lost && u !in s.unmarked ensures InMysql(Run(s, after), u) {
      DrainedExactly(init, before + after, u);
    }
  }

  // ---------------------------------------------------------------- what can still arrive

  /** The same state but for which marks are counted as gone. */
  ghost predicate Alike(s: State, t: State) { t == s.(unmarked := t.unmarked) }

  lemma AlikeStep(s: State, t: State, step: Step)
    requires Alike(s, t) && Enabled(s, step)
    ensures Enabled(t, step) && Alike(Apply(s, step), Apply(t, step))
  {
  }

  lemma {:induction false} AlikeRun(s: State, t: State, steps: seq<Step>)
    requires Alike(s, t) && ValidRun(t, steps)
    ensures ValidRun(s, steps) && Alike(Run(s, steps), Run(t, steps))
    decreases |steps|
  {
    if steps != [] {
      AlikeStep(t, s, steps[0]);
      AlikeRun(Apply(s, steps[0]), Apply(t, steps[0]), steps[1..]);
    }
  }

  /** What is carried and not lost can be drained to MySQL, even if some other mark of it is gone. */
  lemma CarriedArrives(s: State, u: Uid) returns (more: seq<Step>)
    requires DeliveryInv(s) && LatestVer(s, u) > 0 && u !in s.lost && Carried(s, u)
    ensures ValidRun(s, more) && AllFinishing(more) && InMysql(Run(s, more), u)
  {
    var t := s.(unmarked := s.unmarked - {u});
    DeliveryWithout(s, u);
    more := Drain(t);
    AlikeRun(s, t, more);
    DeliveryRun(t, more);
    var t' := Run(t, more);
    assert OnItsWay(t', u) && LatestVer(t', u) == LatestVer(s, u);
  }

  lemma DeliveryWithout(s: State, u: Uid)
    requires DeliveryInv(s) && Carried(s, u)
    ensures DeliveryInv(s.(unmarked := s.unmarked - {u}))
  {
    var t := s.(unmarked := s.unmarked - {u});
    forall v ensures OnItsWay(t, v) { assert OnItsWay(s, v); }
    SameLost(s, t);
    forall v | v in t.unmarked ensures !InMysql(t, v) { assert !InMysql(s, v); }
  }

  /** Some continuation without a new snapshot or mark of u has it up to date in MySQL. */
  ghost predicate CanArrive(s: State, u: Uid) {
    exists more :: ValidRun(s, more) && Untouched(more, u) && InMysql(Run(s, more), u)
  }

  /** In every state that any interleaving with any failures reaches: the newest snapshot of a uid can
      still be in MySQL without any new snapshot or mark of it if and only if it is there, or some
      thread still carries the uid and no failed Redis batch took the snapshot. */
  lemma ArrivesExactly(init: State, steps: seq<Step>, u: Uid)
    requires Initial(init) && ValidRun(init, steps) && LatestVer(Run(init, steps), u) > 0
    ensures ShardsInv(Run(init, steps))
    ensures var s := Run(init, steps); CanArrive(s, u) <==> InMysql(s, u) || (u !in s.lost && Carried(s, u))
  {
    var s := Run(init, steps);
    DeliveryInit(init);
    DeliveryRun(init, steps);
    if InMysql(s, u) {
      assert ValidRun(s, []) && Untouched([], u) && Run(s, []) == s;
    } else if u !in s.lost && Carried(s, u) {
      var more := CarriedArrives(s, u);
      assert Untouched(more, u);
    } else {
      if u in s.lost {
        forall more | ValidRun(s, more) && Untouched(more, u) ensures !InMysql(Run(s, more), u) {
          NeverStored(s, more, u);
        }
      } else {
        CannotArrive(s, u);
      }
    }
  }

  // ---------------------------------------------------------------- what one failure costs

  /** Only u is dirty, or it is all that was stolen so far. */
  ghost predicate OnlyDirty(s: State, u: Uid) {
    && |s.dirty| == SHARDS && s.timer.Stealing? && s.timer.next < SHARDS
    && (forall k :: 0 <= k < SHARDS ==>
      s.dirty[k] == if k == ShardOf(u) && s.timer.next <= k then {u} else {})
    && s.timer.stolen == if s.timer.next <= ShardOf(u) then [] else [u]
  }

  lemma StealOnlyStep(s: State, u: Uid) returns (step: Step)
    requires OnlyDirty(s, u)
    ensures Enabled(s, step)
    ensures var s' := Apply(s, step);
      && s' == s.(dirty := s'.dirty, timer := s'.timer)
      && if s.timer.next + 1 < SHARDS then OnlyDirty(s', u)
         else s'.dirty == NoneDirty() && s'.timer == Batching([u], 0)
  {
    var order := if s.timer.next == ShardOf(u) then [u] else [];
    step := Visit(order);
    assert s.timer.stolen + order == if s.timer.next + 1 <= ShardOf(u) then [] else [u];
  }

  lemma {:induction false} StealOnly(s: State, u: Uid) returns (steps: seq<Step>)
    requires OnlyDirty(s, u)
    ensures ValidRun(s, steps)
    ensures Run(s, steps) == s.(dirty := NoneDirty(), timer := Batching([u], 0))
    decreases SHARDS - s.timer.next
  {
    var step := StealOnlyStep(s, u);
    var s' := Apply(s, step);
    var rest := [];
    if s.timer.next + 1 < SHARDS {
      rest := StealOnly(s', u);
    }
    steps := [step] + rest;
    assert steps[1..] == rest;
  }

  /** One producer pushes, counts and marks, and the timer fires. */
  lemma OneMark(init: State, u: Uid, body: Body) returns (steps: seq<Step>)
    requires Initial(init) && |init.producers| > 0
    ensures ValidRun(init, steps)
    ensures var s, snap := Run(init, steps), Snapshot(u, 1, body);
      s == init.(db := init.db.(rtQ := [snap], pending := 1), log := [snap], timer := Stealing(0, []),
                 dirty := init.dirty[ShardOf(u) := {u}], acc := init.acc.(minted := multiset{u}))
  {
    steps := [];
    RunSnoc(init, steps, Push(0, u, body));
    steps := steps + [Push(0, u, body)];
    RunSnoc(init, steps, Count(0));
    steps := steps + [Count(0)];
    RunSnoc(init, steps, Mark(0));
    steps := steps + [Mark(0)];
    assert init.producers[0 := Quiet] == init.producers;
    RunSnoc(init, steps, Fire);
    steps := steps + [Fire];
    var s := Run(init, steps);
    assert s.producers == init.producers && s.log == [Snapshot(u, 1, body)] && s.db.rtQ == s.log;
    assert init.dirty[ShardOf(u)] + {u} == {u};
    assert s.dirty == init.dirty[ShardOf(u) := {u}];
    assert s.acc.minted == multiset{u} && s.acc == init.acc.(minted := multiset{u});
    assert s.lost == init.lost && s.unmarked == init.unmarked;
  }

  /** One update travels alone up to the DB thread. */
  lemma OneUpdate(init: State, u: Uid, body: Body) returns (steps: seq<Step>)
    requires Initial(init) && |init.producers| > 0
    ensures ValidRun(init, steps)
    ensures var s := Run(init, steps);
      && s.worker == Connecting([u]) && s.log == [Snapshot(u, 1, body)]
      && s.db == init.db.(rtQ := s.log, pending := 1)
      && Drained(s.(worker := Parked)) && s.lost == {} && s.unmarked == {}
  {
    steps := OneMark(init, u, body);
    var visits := StealOnly(Run(init, steps), u);
    RunAppend(init, steps, visits);
    steps := steps + visits;
    assert [u][0..1] == [u];
    RunSnoc(init, steps, PushBatch);
    steps := steps + [PushBatch];
    RunSnoc(init, steps, Pop);
    steps := steps + [Pop];
  }

  lemma NewestOfOne(s: State, u: Uid)
    requires |s.log| == 1 && s.log[0].uid == u
    ensures LatestVer(s, u) == 1
  {
  }

  lemma ConnectFails(init: State, u: Uid, body: Body) returns (steps: seq<Step>)
    requires Initial(init) && |init.producers| > 0 && !init.db.Up()
    ensures ValidRun(init, steps)
    ensures var s := Run(init, steps);
      && Drained(s) && LatestVer(s, u) == 1 && s.db.rtQ == s.log
      && u !in s.lost && u in s.unmarked && !InMysql(s, u)
  {
    steps := OneUpdate(init, u, body);
    RunSnoc(init, steps, Connect(false));
    NewestOfOne(Run(init, steps), u);
    steps := steps + [Connect(false)];
    NewestOfOne(Run(init, steps), u);
  }

  lemma CannotArrive(s: State, u: Uid)
    requires DeliveryInv(s) && Stranded(s, u)
    ensures !CanArrive(s, u)
  {
    forall more | ValidRun(s, more) && Untouched(more, u) ensures !InMysql(Run(s, more), u) {
      StrandedForever(s, more, u);
    }
  }

  lemma DrainedStrands(s: State, u: Uid)
    requires ShardsInv(s) && Drained(s) && LatestVer(s, u) > 0 && !InMysql(s, u)
    ensures Stranded(s, u)
  {
  }

  /** A single failed connect strands the update: every thread is done, the snapshot still sits in
      the queue, and no continuation without a new snapshot or mark of the uid ever brings it to MySQL. */
  lemma ConnectFailureStrands(init: State, u: Uid, body: Body) returns (steps: seq<Step>)
    requires Initial(init) && |init.producers| > 0 && !init.db.Up()
    ensures ValidRun(init, steps)
    ensures var s := Run(init, steps);
      && Drained(s) && LatestVer(s, u) == 1 && s.db.rtQ == s.log
      && u !in s.lost && u in s.unmarked && !CanArrive(s, u)
  {
    steps := ConnectFails(init, u, body);
    DeliveryInit(init);
    DeliveryRun(init, steps);
    DrainedStrands(Run(init, steps), u);
    CannotArrive(Run(init, steps), u);
  }

  lemma BatchFails(init: State, u: Uid, body: Body) returns (steps: seq<Step>)
    requires Initial(init) && |init.producers| > 0
    ensures ValidRun(init, steps)
    ensures var s := Run(init, steps); u in s.lost && |s.log| == 1 && s.log[0].uid == u
  {
    steps := OneUpdate(init, u, body);
    RunSnoc(init, steps, Connect(true));
    steps := steps + [Connect(true)];
    RunSnoc(init, steps, Swap);
    steps := steps + [Swap];
    RunSnoc(init, steps, Subtract);
    steps := steps + [Subtract];
    var s := Run(init, steps);
    NewestOfOne(s, u);
    assert s.db.local[0..][0] == s.log[0];
    assert s.log[0] in s.db.local[0..];
    RunSnoc(init, steps, Write(0, false));
    steps := steps + [Write(0, false)];
  }

  /** A single failed Redis batch destroys the update, although every later call succeeds. */
  lemma RedisFailureDestroys(init: State, u: Uid, body: Body) returns (steps: seq<Step>)
    requires Initial(init) && |init.producers| > 0
    ensures ValidRun(init, steps)
    ensures var s := Run(init, steps);
      Drained(s) && LatestVer(s, u) == 1 && u in s.lost && !InRedis(s.db, u, 1) && !InMysql(s, u)
  {
    steps := BatchFails(init, u, body);
    var s := Run(init, steps);
    DeliveryInit(init);
    DeliveryRun(init, steps);
    var after := Drain(s);
    NewestOfOne(s, u);
    NeverStored(s, after, u);
    RunAppend(init, steps, after);
    steps := steps + after;
  }

  lemma LostStep(s: State, step: Step, u: Uid)
    requires Enabled(s, step) && u in s.lost && !(step.Push? && step.uid == u)
    ensures u in Apply(s, step).lost && LatestVer(Apply(s, step), u) == LatestVer(s, u)
  {
    if step.Push? {
      LatestPrefix(s.log, [Snapshot(step.uid, |s.log| + 1, step.body)], |s.log|, u);
    }
  }

  /** While a uid is lost, nothing short of a new snapshot brings it up to date again. */
  lemma {:induction false} NeverStored(s: State, steps: seq<Step>, u: Uid)
    requires StoresInv(s) && ValidRun(s, steps) && u in s.lost && LatestVer(s, u) > 0
    requires forall i :: 0 <= i < |steps| ==> !(steps[i].Push? && steps[i].uid == u)
    ensures var s' := Run(s, steps);
      u in s'.lost && LatestVer(s', u) == LatestVer(s, u)
      && !InRedis(s'.db, u, LatestVer(s, u)) && !InMysql(s', u)
    decreases |steps|
  {
    if steps == [] {
      LostNotStored(s, u);
    } else {
      StoresStep(s, steps[0]);
      LostStep(s, steps[0], u);
      NeverStored(Apply(s, steps[0]), steps[1..], u);
    }
  }
}
