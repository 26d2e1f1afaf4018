/** Two counts that hold at every step of every interleaving: marked uids and pending snapshots. */
module WriteBehindAccounts {
  import opened Collections
  import opened WriteBehindModel
  import opened WriteBehindDelivery

  // ---------------------------------------------------------------- every mark is accounted for

  ghost function InQueue(queue: seq<Job>, u: Uid): nat {
    if queue == [] then 0 else multiset(queue[0])[u] + InQueue(queue[1..], u)
  }

  function JobInHand(worker: Worker): Job {
    if worker.Parked? then [] else worker.job
  }

  ghost function IsDirty(s: State, u: Uid): nat
    requires |s.dirty| == SHARDS
  {
    if u in s.dirty[ShardOf(u)] then 1 else 0
  }

  ghost function WithTimer(t: Timer, u: Uid): nat
    requires TimerWf(t)
  {
    multiset(TimerHolds(t))[u]
  }

  ghost function InHand(worker: Worker, u: Uid): nat { multiset(JobInHand(worker))[u] }

  /** Marks of u = dirty now + with the timer + in queued jobs + in the job in hand + handled
      + dropped on a failure branch + merged into an earlier mark. */
  ghost predicate Balanced(s: State, u: Uid)
    requires ShardsInv(s)
  {
    s.acc.minted[u] ==
      IsDirty(s, u) + WithTimer(s.timer, u) + InQueue(s.queue, u) + InHand(s.worker, u)
      + s.acc.handled[u] + s.acc.dropped[u] + s.acc.merged[u]
  }

  /** The queue never exceeds its bound and holds batches of distinct uids no longer than maxBatch. */
  ghost predicate QueueInv(s: State) {
    && |s.queue| <= MAX_QUEUE
    && (forall j :: 0 <= j < |s.queue| ==>
      NoDup(s.queue[j]) && |s.queue[j]| <= MaxBatch(s.maxBatchUids))
    && NoDup(JobInHand(s.worker))
  }

  lemma {:induction false} InQueueAppend(queue: seq<Job>, job: Job, u: Uid)
    ensures InQueue(queue + [job], u) == InQueue(queue, u) + multiset(job)[u]
  {
    if queue == [] {
      assert queue + [job] == [job];
    } else {
      assert (queue + [job])[1..] == queue[1..] + [job];
      InQueueAppend(queue[1..], job, u);
    }
  }

  lemma {:induction false} NoDupCounts(s: seq<Uid>, u: Uid)
    requires NoDup(s)
    ensures multiset(s)[u] == if u in s then 1 else 0
  {
    if s != [] {
      var init, last := s[..|s| - 1], s[|s| - 1];
      assert s == init + [last];
      NoDupCounts(init, u);
    }
  }

  lemma MarkCounts(s: State, m: Uid, u: Uid)
    requires |s.dirty| == SHARDS
    ensures var s' := MarkDirty(s, m);
      && |s'.dirty| == SHARDS
      && s'.acc == s.acc.(merged := s'.acc.merged)
      && IsDirty(s', u) + s'.acc.merged[u] == IsDirty(s, u) + s.acc.merged[u] + if u == m then 1 else 0
  {
  }

  lemma BalancedFieldThread(s: State, step: Step, u: Uid)
    requires step.Push? || step.Count? || step.Mark? || step.MarkOnly?
    requires Enabled(s, step) && ShardsInv(s) && ShardsInv(Apply(s, step)) && Balanced(s, u)
    ensures Balanced(Apply(s, step), u)
  {
    var s' := Apply(s, step);
    assert s'.timer == s.timer && s'.queue == s.queue && s'.worker == s.worker;
    if step.Mark? || step.MarkOnly? {
      var m := if step.Mark? then s.producers[step.t].uid else step.uid;
      MarkCounts(Minted(s, m), m, u);
    }
  }

  lemma BalancedVisit(s: State, step: Step, u: Uid)
    requires step.Visit? && Enabled(s, step) && ShardsInv(s) && ShardsInv(Apply(s, step)) && Balanced(s, u)
    ensures Balanced(Apply(s, step), u)
  {
    var s' := Apply(s, step);
    var stolen := s.timer.stolen + step.order;
    assert TimerHolds(s'.timer) == stolen by {
      if s'.timer.Batching? { assert stolen[0..] == stolen; }
    }
    NoDupCounts(step.order, u);
    assert IsDirty(s, u) == IsDirty(s', u) + multiset(step.order)[u];
    assert multiset(stolen) == multiset(s.timer.stolen) + multiset(step.order);
  }

  lemma {:induction false} SplitCounts(a: seq<Uid>, n: nat, u: Uid)
    requires n <= |a|
    ensures multiset(a)[u] == multiset(a[..n])[u] + multiset(a[n..])[u]
  {
    assert a == a[..n] + a[n..];
  }

  lemma PushBatchCounts(s: State, u: Uid)
    requires Enabled(s, PushBatch) && ShardsInv(s) && TimerWf(Apply(s, PushBatch).timer)
    ensures var s' := Apply(s, PushBatch);
      WithTimer(s'.timer, u) + InQueue(s'.queue, u) == WithTimer(s.timer, u) + InQueue(s.queue, u)
  {
    var held := TimerHolds(s.timer);
    var n := EndOfBatch(s.timer.uids, s.timer.i, MaxBatch(s.maxBatchUids)) - s.timer.i;
    PushBatchHolds(s);
    SplitCounts(held, n, u);
    InQueueAppend(s.queue, held[..n], u);
  }

  lemma PushBatchElsewhere(s: State)
    requires Enabled(s, PushBatch)
    ensures var s' := Apply(s, PushBatch); s'.dirty == s.dirty && s'.worker == s.worker && s'.acc == s.acc
  {
  }

  lemma BalancedPushBatch(s: State, u: Uid)
    requires Enabled(s, PushBatch) && ShardsInv(s) && ShardsInv(Apply(s, PushBatch)) && Balanced(s, u)
    ensures Balanced(Apply(s, PushBatch), u)
  {
    PushBatchCounts(s, u);
    PushBatchElsewhere(s);
  }

  lemma RemarkHolds(s: State)
    requires Enabled(s, Remark) && ShardsInv(s)
    ensures var s' := Apply(s, Remark);
      TimerWf(s'.timer) && TimerHolds(s'.timer) == TimerHolds(s.timer)[1..]
  {
  }

  lemma RemarkTimerCounts(s: State, u: Uid)
    requires Enabled(s, Remark) && ShardsInv(s) && ShardsInv(Apply(s, Remark))
    ensures WithTimer(s.timer, u) ==
      WithTimer(Apply(s, Remark).timer, u) + if u == s.timer.uids[s.timer.k] then 1 else 0
  {
    var held := TimerHolds(s.timer);
    RemarkHolds(s);
    SplitCounts(held, 1, u);
    assert held[..1] == [held[0]];
  }

  lemma RemarkShardCounts(s: State, u: Uid)
    requires Enabled(s, Remark) && ShardsInv(s)
    ensures var s' := Apply(s, Remark);
      && |s'.dirty| == SHARDS && s'.queue == s.queue && s'.worker == s.worker
      && s'.acc == s.acc.(merged := s'.acc.merged)
      && IsDirty(s', u) + s'.acc.merged[u] ==
        IsDirty(s, u) + s.acc.merged[u] + if u == s.timer.uids[s.timer.k] then 1 else 0
  {
    MarkCounts(s, s.timer.uids[s.timer.k], u);
  }

  lemma BalancedRemark(s: State, u: Uid)
    requires Enabled(s, Remark) && ShardsInv(s) && ShardsInv(Apply(s, Remark)) && Balanced(s, u)
    ensures Balanced(Apply(s, Remark), u)
  {
    RemarkTimerCounts(s, u);
    RemarkShardCounts(s, u);
  }

  lemma BalancedTimer(s: State, step: Step, u: Uid)
    requires step.Fire? || step.LoadPending? || step.PushWake?
    requires Enabled(s, step) && ShardsInv(s) && ShardsInv(Apply(s, step)) && Balanced(s, u)
    ensures Balanced(Apply(s, step), u)
  {
    if step.PushWake? { InQueueAppend(s.queue, [], u); }
  }

  lemma BalancedPop(s: State, u: Uid)
    requires Enabled(s, Pop) && ShardsInv(s) && ShardsInv(Apply(s, Pop)) && Balanced(s, u)
    ensures Balanced(Apply(s, Pop), u)
  {
  }

  lemma WorkerElsewhere(s: State, step: Step)
    requires step.Connect? || step.Swap? || step.Subtract? || step.Write?
      || step.Reconnect? || step.Fetch? || step.Upsert?
    requires Enabled(s, step)
    ensures var s' := Apply(s, step);
      && s'.timer == s.timer && s'.dirty == s.dirty && s'.queue == s.queue
      && s'.acc.minted == s.acc.minted && s'.acc.merged == s.acc.merged
  {
  }

  lemma WorkerCounts(s: State, step: Step, u: Uid)
    requires step.Connect? || step.Swap? || step.Subtract? || step.Write?
      || step.Reconnect? || step.Fetch? || step.Upsert?
    requires Enabled(s, step)
    ensures var s' := Apply(s, step);
      InHand(s'.worker, u) + s'.acc.handled[u] + s'.acc.dropped[u]
      == InHand(s.worker, u) + s.acc.handled[u] + s.acc.dropped[u]
  {
  }

  lemma BalancedWorker(s: State, step: Step, u: Uid)
    requires step.Connect? || step.Swap? || step.Subtract? || step.Write?
      || step.Reconnect? || step.Fetch? || step.Upsert?
    requires Enabled(s, step) && ShardsInv(s) && ShardsInv(Apply(s, step)) && Balanced(s, u)
    ensures Balanced(Apply(s, step), u)
  {
    WorkerElsewhere(s, step);
    WorkerCounts(s, step, u);
  }

  lemma BalancedStep(s: State, step: Step, u: Uid)
    requires Enabled(s, step) && ShardsInv(s) && Balanced(s, u)
    ensures ShardsInv(Apply(s, step)) && Balanced(Apply(s, step), u)
  {
    ShardsStep(s, step);
    match step {
      case Push(_, _, _) => BalancedFieldThread(s, step, u);
      case Count(_) => BalancedFieldThread(s, step, u);
      case Mark(_) => BalancedFieldThread(s, step, u);
      case MarkOnly(_) => BalancedFieldThread(s, step, u);
      case Visit(_) => BalancedVisit(s, step, u);
      case PushBatch => BalancedPushBatch(s, u);
      case Remark => BalancedRemark(s, u);
      case Fire => BalancedTimer(s, step, u);
      case LoadPending => BalancedTimer(s, step, u);
      case PushWake => BalancedTimer(s, step, u);
      case Pop => BalancedPop(s, u);
      case _ => BalancedWorker(s, step, u);
    }
  }

  lemma QueueStep(s: State, step: Step)
    requires Enabled(s, step) && ShardsInv(s) && QueueInv(s)
    ensures QueueInv(Apply(s, step))
  {
    var s' := Apply(s, step);
    if step.PushBatch? {
      var held, m := TimerHolds(s.timer), MaxBatch(s.maxBatchUids);
      var n := EndOfBatch(s.timer.uids, s.timer.i, m) - s.timer.i;
      assert s.timer.uids[s.timer.i..s.timer.i + n] == held[..n];
    }
  }

  /** Conservation: no interleaving creates, duplicates or forgets a mark, and a uid is in at most
      one place of each queued batch. */
  lemma {:induction false} Conservation(s: State, steps: seq<Step>, u: Uid)
    requires ShardsInv(s) && QueueInv(s) && Balanced(s, u) && ValidRun(s, steps)
    ensures var s' := Run(s, steps); ShardsInv(s') && QueueInv(s') && Balanced(s', u)
    decreases |steps|
  {
    if steps != [] {
      BalancedStep(s, steps[0], u);
      QueueStep(s, steps[0]);
      Conservation(Apply(s, steps[0]), steps[1..], u);
    }
  }

  /** From a fresh system: every mark ever made is accounted for, and once all is drained it was
      handled, dropped on a failure branch, or merged into another mark of the same uid. */
  lemma EveryMarkAccounted(init: State, steps: seq<Step>, u: Uid)
    requires Initial(init) && ValidRun(init, steps)
    ensures var s := Run(init, steps);
      && ShardsInv(s) && QueueInv(s) && Balanced(s, u)
      && (Drained(s) ==> s.acc.minted[u] == s.acc.handled[u] + s.acc.dropped[u] + s.acc.merged[u])
  {
    Conservation(init, steps, u);
  }

  // ---------------------------------------------------------------- the pending counter

  /** Producers between their push and their fetch_add. */
  ghost function InGap(producers: seq<Producer>): nat {
    if producers == [] then 0
    else (if producers[|producers| - 1].Pushed? then 1 else 0) + InGap(producers[..|producers| - 1])
  }

  /** Snapshots swapped out whose number was not subtracted yet. */
  ghost function Unsubtracted(s: State): nat {
    if s.worker.Subtracting? then |s.db.local| else 0
  }

  ghost predicate PendingInv(s: State) {
    && s.db.pending < UINT32
    && (s.db.pending + InGap(s.producers)) % UINT32 == (|s.db.rtQ| + Unsubtracted(s)) % UINT32
  }

  lemma {:induction false} InGapUpdate(producers: seq<Producer>, t: nat, p: Producer)
    requires t < |producers|
    ensures InGap(producers[t := p]) ==
      InGap(producers) - (if producers[t].Pushed? then 1 else 0) + (if p.Pushed? then 1 else 0)
  {
    var init := producers[..|producers| - 1];
    if t == |producers| - 1 {
      assert producers[t := p][..t] == init;
    } else {
      assert producers[t := p][..|producers| - 1] == init[t := p];
      InGapUpdate(init, t, p);
    }
  }

  lemma {:induction false} InGapQuiet(producers: seq<Producer>)
    requires forall t :: 0 <= t < |producers| ==> !producers[t].Pushed?
    ensures InGap(producers) == 0
  {
    if producers != [] { InGapQuiet(producers[..|producers| - 1]); }
  }

  lemma AddBoth(a: nat, b: nat)
    requires a % UINT32 == b % UINT32
    ensures (a + 1) % UINT32 == (b + 1) % UINT32
  {
  }

  lemma Subtracts(pending: nat, n: nat, gap: nat, queued: nat)
    requires (pending + gap) % UINT32 == (queued + n) % UINT32
    ensures ((pending + UINT32 - n % UINT32) % UINT32 + gap) % UINT32 == queued % UINT32
  {
    var m, k := n % UINT32, n / UINT32;
    var j := (pending + gap) / UINT32 - (queued + n) / UINT32;
    assert n == k * UINT32 + m;
    assert pending + gap == queued + n + j * UINT32;
    var l := (pending + UINT32 - m) / UINT32;
    assert (pending + UINT32 - m) % UINT32 == pending + UINT32 - m - l * UINT32;
    var left := (pending + UINT32 - m) % UINT32 + gap;
    assert left == queued + (k + j + 1 - l) * UINT32;
    SameResidue(queued, left, k + j + 1 - l);
  }

  lemma SameResidue(a: nat, b: nat, k: int)
    requires b == a + k * UINT32
    ensures a % UINT32 == b % UINT32
  {
  }

  lemma PendingPush(s: State, step: Step)
    requires step.Push? && Enabled(s, step) && PendingInv(s)
    ensures PendingInv(Apply(s, step))
  {
    InGapUpdate(s.producers, step.t, Pushed(step.uid));
    AddBoth(s.db.pending + InGap(s.producers), |s.db.rtQ| + Unsubtracted(s));
  }

  lemma CountsUp(pending: nat, gap: nat, total: nat)
    requires gap > 0 && (pending + gap) % UINT32 == total % UINT32
    ensures ((pending + 1) % UINT32 + (gap - 1)) % UINT32 == total % UINT32
  {
    var k := (pending + 1) / UINT32;
    assert pending + gap == (pending + 1) % UINT32 + (gap - 1) + k * UINT32;
    SameResidue((pending + 1) % UINT32 + (gap - 1), pending + gap, k);
  }

  lemma PendingCount(s: State, step: Step)
    requires step.Count? && Enabled(s, step) && PendingInv(s)
    ensures PendingInv(Apply(s, step))
  {
    InGapUpdate(s.producers, step.t, Counted(s.producers[step.t].uid));
    InGapSome(s.producers, step.t);
    CountsUp(s.db.pending, InGap(s.producers), |s.db.rtQ| + Unsubtracted(s));
  }

  lemma {:induction false} InGapSome(producers: seq<Producer>, t: nat)
    requires t < |producers| && producers[t].Pushed?
    ensures InGap(producers) > 0
  {
    if t < |producers| - 1 { InGapSome(producers[..|producers| - 1], t); }
  }

  lemma PendingMark(s: State, step: Step)
    requires step.Mark? && Enabled(s, step) && PendingInv(s)
    ensures PendingInv(Apply(s, step))
  {
    InGapUpdate(s.producers, step.t, Quiet);
    assert Apply(s, step).db == s.db && Apply(s, step).worker == s.worker;
  }

  lemma PendingSubtract(s: State)
    requires Enabled(s, Subtract) && PendingInv(s)
    ensures PendingInv(Apply(s, Subtract))
  {
    Subtracts(s.db.pending, |s.db.local|, InGap(s.producers), |s.db.rtQ|);
  }

  lemma PendingElsewhere(s: State, step: Step)
    requires !step.Push? && !step.Count? && !step.Mark? && !step.Subtract? && !step.Swap?
    requires Enabled(s, step) && PendingInv(s)
    ensures PendingInv(Apply(s, step))
  {
    var s' := Apply(s, step);
    assert s'.producers == s.producers && s'.db.pending == s.db.pending && s'.db.rtQ == s.db.rtQ;
    assert s'.worker.Subtracting? ==> s'.worker == s.worker && s'.db.local == s.db.local;
  }

  lemma PendingStep(s: State, step: Step)
    requires Enabled(s, step) && PendingInv(s)
    ensures PendingInv(Apply(s, step))
  {
    match step {
      case Push(_, _, _) => PendingPush(s, step);
      case Count(_) => PendingCount(s, step);
      case Mark(_) => PendingMark(s, step);
      case Subtract => PendingSubtract(s);
      case Swap => assert Apply(s, step).db.local == s.db.rtQ;
      case _ => PendingElsewhere(s, step);
    }
  }

  /** The counter is the queue's length up to threads in a gap, modulo 2^32, in every interleaving,
      so a wrap below zero repairs itself. */
  lemma {:induction false} PendingCounter(s: State, steps: seq<Step>)
    requires PendingInv(s) && ValidRun(s, steps)
    ensures PendingInv(Run(s, steps))
    decreases |steps|
  {
    if steps != [] {
      PendingStep(s, steps[0]);
      PendingCounter(Apply(s, steps[0]), steps[1..]);
    }
  }

  /** With no thread in a gap and fewer than 2^32 snapshots queued, the idle timer schedules a drain
      exactly when there is something to drain. */
  lemma IdleTimerWakes(init: State, steps: seq<Step>)
    requires Initial(init) && ValidRun(init, steps)
    requires var s := Run(init, steps);
      && s.timer.Checking? && |s.db.rtQ| < UINT32 && !s.worker.Subtracting?
      && forall t :: 0 <= t < |s.producers| ==> !s.producers[t].Pushed?
    ensures Apply(Run(init, steps), LoadPending).timer.Waking? <==> Run(init, steps).db.rtQ != []
  {
    var s := Run(init, steps);
    InGapQuiet(init.producers);
    PendingCounter(init, steps);
    InGapQuiet(s.producers);
  }
}
