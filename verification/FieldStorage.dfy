/** From the field to the database: the calls that the field makes for a player are steps of a field
    thread of the write-behind pipeline, and whatever the other threads do in between, it is exactly known
    when what they save last is in MySQL and when it can still get there. */
module FieldStorage {
  import opened Collections
  import opened Measures
  import opened WriteBehindModel
  import opened WriteBehindStores
  import opened WriteBehindDelivery
  import opened WriteBehindStranded
  import opened WriteBehindDrain
  import Players = FieldPlayers

  /** Every snapshot but a last one is followed at once by its mark. */
  ghost predicate Paired(fx: seq<Players.Effect>) {
    forall i :: 0 <= i < |fx| - 1 && fx[i].Enqueued? ==> fx[i + 1].Marked?
  }

  /** The thread is between a snapshot and its mark. */
  predicate Owing(fx: seq<Players.Effect>) { fx != [] && fx[|fx| - 1].Enqueued? }

  function Saved(e: Players.Effect): Body
    requires e.Enqueued?
  {
    Body(e.pos.x, e.pos.y, e.hp, e.sp)
  }

  /** What a call does to the pipeline, on thread t; `owing` says whether a snapshot came right before. */
  function CallSteps(t: nat, uid: Uid, owing: bool, e: Players.Effect): seq<Step> {
    match e
    case Enqueued(_, _, _) => [Push(t, uid, Saved(e)), Count(t)]
    case Marked => if owing then [Mark(t)] else [MarkOnly(uid)]
    case _ => []
  }

  function AllSteps(t: nat, uid: Uid, fx: seq<Players.Effect>): seq<Step> {
    if fx == [] then []
    else
      var before := fx[..|fx| - 1];
      AllSteps(t, uid, before) + CallSteps(t, uid, Owing(before), fx[|fx| - 1])
  }

  function LastSave(fx: seq<Players.Effect>): Option<Body> {
    if fx == [] then None
    else if fx[|fx| - 1].Enqueued? then Some(Saved(fx[|fx| - 1])) else LastSave(fx[..|fx| - 1])
  }

  lemma {:induction false} LastSaveIsLastSaved(fx: seq<Players.Effect>)
    ensures match LastSave(fx)
      case None => Players.LastSaved(fx) == None
      case Some(b) => Players.LastSaved(fx) == Some(Vec2(b.x, b.z))
  {
    if fx != [] && !fx[|fx| - 1].Enqueued? { LastSaveIsLastSaved(fx[..|fx| - 1]); }
  }

  // ---------------------------------------------------------------- the calls are steps

  /** The thread stands as the calls say, and the newest snapshot is the last one saved. */
  ghost predicate Called(s: State, t: nat, uid: Uid, fx: seq<Players.Effect>) {
    && t < |s.producers| && |s.dirty| == SHARDS
    && s.producers[t] == (if Owing(fx) then Counted(uid) else Quiet)
    && match LastSave(fx)
       case None => s.log == []
       case Some(b) => s.log != [] && s.log[|s.log| - 1] == Snapshot(uid, |s.log|, b)
  }

  lemma CallRuns(s: State, t: nat, uid: Uid, before: seq<Players.Effect>, e: Players.Effect)
    requires Called(s, t, uid, before) && (Owing(before) ==> e.Marked?)
    ensures ValidRun(s, CallSteps(t, uid, Owing(before), e))
    ensures Called(Run(s, CallSteps(t, uid, Owing(before), e)), t, uid, before + [e])
  {
    var fx := before + [e];
    assert fx[..|fx| - 1] == before;
    if e.Enqueued? {
      var s1 := Apply(s, Push(t, uid, Saved(e)));
      var s2 := Apply(s1, Count(t));
      assert [Push(t, uid, Saved(e)), Count(t)][1..] == [Count(t)] && [Count(t)][1..] == [];
      assert ValidRun(s2, []) && ValidRun(s1, [Count(t)]);
      assert Run(s2, []) == s2 && Run(s1, [Count(t)]) == s2;
    } else if e.Marked? {
      var step := if Owing(before) then Mark(t) else MarkOnly(uid);
      assert [step][1..] == [];
      assert ValidRun(Apply(s, step), []) && Run(Apply(s, step), []) == Apply(s, step);
    }
  }

  lemma {:induction false} CallsRun(s: State, t: nat, uid: Uid, fx: seq<Players.Effect>)
    requires Called(s, t, uid, []) && Paired(fx)
    ensures ValidRun(s, AllSteps(t, uid, fx)) && Called(Run(s, AllSteps(t, uid, fx)), t, uid, fx)
    decreases |fx|
  {
    if fx != [] {
      var before, e := fx[..|fx| - 1], fx[|fx| - 1];
      CallsRun(s, t, uid, before);
      var b := Run(s, AllSteps(t, uid, before));
      if Owing(before) { assert fx[|fx| - 2].Enqueued?; }
      CallRuns(b, t, uid, before, e);
      RunAppend(s, AllSteps(t, uid, before), CallSteps(t, uid, Owing(before), e));
      assert before + [e] == fx;
    }
  }

  lemma {:induction false} CallsFailureFree(t: nat, uid: Uid, fx: seq<Players.Effect>)
    ensures FailureFree(AllSteps(t, uid, fx))
  {
    if fx != [] { CallsFailureFree(t, uid, fx[..|fx| - 1]); }
  }

  lemma FaithfulPairs(from: Vec2, fx: seq<Players.Effect>, to: Vec2)
    requires Players.Faithful(from, fx, to)
    ensures Paired(fx) && !Owing(fx)
  {
    forall i | 0 <= i < |fx| && fx[i].Enqueued? ensures i + 1 < |fx| && fx[i + 1].Marked? {
      assert Players.FaithfulAt(from, fx, i);
    }
  }

  // ---------------------------------------------------------------- any interleaving

  /** The bodies that are pushed for uid, by whatever thread, in order. */
  function Pushes(steps: seq<Step>, uid: Uid): seq<Body> {
    if steps == [] then []
    else (if steps[0].Push? && steps[0].uid == uid then [steps[0].body] else []) + Pushes(steps[1..], uid)
  }

  /** The bodies that the field saves for its player, in order. */
  function Saves(fx: seq<Players.Effect>): seq<Body> {
    if fx == [] then []
    else Saves(fx[..|fx| - 1]) + (if fx[|fx| - 1].Enqueued? then [Saved(fx[|fx| - 1])] else [])
  }

  lemma {:induction false} LastSaveIsLast(fx: seq<Players.Effect>)
    ensures LastSave(fx) == if Saves(fx) == [] then None else Some(Saves(fx)[|Saves(fx)| - 1])
  {
    if fx != [] && !fx[|fx| - 1].Enqueued? { LastSaveIsLast(fx[..|fx| - 1]); }
  }

  lemma {:induction false} PushesConcat(a: seq<Step>, b: seq<Step>, uid: Uid)
    ensures Pushes(a + b, uid) == Pushes(a, uid) + Pushes(b, uid)
  {
    if a == [] {
      assert a + b == b;
    } else {
      assert (a + b)[1..] == a[1..] + b;
      PushesConcat(a[1..], b, uid);
    }
  }

  lemma CallPushes(t: nat, uid: Uid, owing: bool, e: Players.Effect)
    ensures Pushes(CallSteps(t, uid, owing, e), uid) == if e.Enqueued? then [Saved(e)] else []
  {
    var none: seq<Step>, calls := [], CallSteps(t, uid, owing, e);
    assert Pushes(none, uid) == [];
    match e {
      case Enqueued(_, _, _) =>
        assert calls[1..] == [Count(t)] && [Count(t)][1..] == none;
        assert Pushes([Count(t)], uid) == [];
      case Marked => assert calls[1..] == none;
      case _ => assert calls == none;
    }
  }

  lemma {:induction false} CallsPush(t: nat, uid: Uid, fx: seq<Players.Effect>)
    ensures Pushes(AllSteps(t, uid, fx), uid) == Saves(fx)
  {
    if fx != [] {
      var before, e := fx[..|fx| - 1], fx[|fx| - 1];
      CallsPush(t, uid, before);
      PushesConcat(AllSteps(t, uid, before), CallSteps(t, uid, Owing(before), e), uid);
      CallPushes(t, uid, Owing(before), e);
    }
  }

  /** The body of a uid's newest snapshot. */
  ghost function NewestBody(s: State, uid: Uid): Option<Body> {
    if LatestVer(s, uid) == 0 then None else Some(s.log[LatestVer(s, uid) - 1].body)
  }

  lemma StepNewest(s: State, step: Step, uid: Uid)
    requires Enabled(s, step)
    ensures NewestBody(Apply(s, step), uid) ==
      if step.Push? && step.uid == uid then Some(step.body) else NewestBody(s, uid)
  {
    if step.Push? { LatestPrefix(s.log, [Snapshot(step.uid, |s.log| + 1, step.body)], |s.log|, uid); }
  }

  lemma {:induction false} RunNewest(s: State, steps: seq<Step>, uid: Uid)
    requires ValidRun(s, steps)
    ensures var ps := Pushes(steps, uid);
      NewestBody(Run(s, steps), uid) == if ps == [] then NewestBody(s, uid) else Some(ps[|ps| - 1])
    decreases |steps|
  {
    if steps != [] {
      StepNewest(s, steps[0], uid);
      RunNewest(Apply(s, steps[0]), steps[1..], uid);
    }
  }

  lemma {:induction false} UntouchedPushes(steps: seq<Step>, uid: Uid)
    requires Untouched(steps, uid)
    ensures Pushes(steps, uid) == []
  {
    if steps != [] {
      assert !Touches(steps[0], uid);
      assert Untouched(steps[1..], uid) by { assert forall i :: 0 <= i < |steps[1..]| ==> steps[1..][i] == steps[i + 1]; }
      UntouchedPushes(steps[1..], uid);
    }
  }

  /** MySQL has the newest snapshot of uid, and this is its body. */
  ghost predicate Holds(s: State, uid: Uid, body: Body) { InMysql(s, uid) && s.db.mysql[uid].body == body }

  /** It can come to have it without a new snapshot or mark of uid. */
  ghost predicate CanHold(s: State, uid: Uid, body: Body) {
    exists more :: ValidRun(s, more) && Untouched(more, uid) && Holds(Run(s, more), uid, body)
  }

  lemma NewestRow(s: State, uid: Uid, body: Body)
    requires StoresInv(s) && NewestBody(s, uid) == Some(body)
    ensures Holds(s, uid, body) <==> InMysql(s, uid)
  {
  }

  lemma CanHoldNewest(s: State, uid: Uid, body: Body)
    requires DeliveryInv(s) && NewestBody(s, uid) == Some(body)
    ensures CanHold(s, uid, body) <==> CanArrive(s, uid)
  {
    forall more | ValidRun(s, more) && Untouched(more, uid)
      ensures Holds(Run(s, more), uid, body) <==> InMysql(Run(s, more), uid)
    {
      UntouchedPushes(more, uid);
      RunNewest(s, more, uid);
      DeliveryRun(s, more);
      NewestRow(Run(s, more), uid, body);
    }
  }

  // ---------------------------------------------------------------- end to end

  /** Over every run of a player in the field, and every interleaving, with any failures, of the pipeline's
      threads in which the snapshots pushed for the player are those that the field saves: MySQL can still
      come to hold the last saved state if and only if it holds it, or some thread carries the uid and no
      failed Redis batch took it; and once nothing is left to do, it holds it if and only if neither it
      nor its mark went down with a failure. */
  lemma SavedArrives(p: Players.Solo, step: real, es: seq<Players.Event>, init: State, steps: seq<Step>, uid: Uid, last: Body)
    requires p.fx == [] && Players.AllEnabled(es) && Initial(init) && ValidRun(init, steps)
    requires var fx := Players.Run(p, step, true, es).fx; Pushes(steps, uid) == Saves(fx) && LastSave(fx) == Some(last)
    ensures var s := Run(init, steps);
      && ShardsInv(s)
      && (CanHold(s, uid, last) <==> Holds(s, uid, last) || (uid !in s.lost && Carried(s, uid)))
      && (Drained(s) ==> (Holds(s, uid, last) <==> uid !in s.lost && uid !in s.unmarked))
  {
    var s := Run(init, steps);
    LastSaveIsLast(Players.Run(p, step, true, es).fx);
    RunNewest(init, steps, uid);
    DeliveryInit(init);
    DeliveryRun(init, steps);
    NewestRow(s, uid, last);
    CanHoldNewest(s, uid, last);
    ArrivesExactly(init, steps, uid);
    if Drained(s) { DrainedExactly(init, steps, uid); }
  }

  /** So when MySQL holds what was saved last, it holds the very place where the player stands, if that was
      saved since its last move, as that of a player is whom the timeout stopped. */
  lemma SavedHereArrives(p: Players.Solo, step: real, es: seq<Players.Event>, init: State, steps: seq<Step>, uid: Uid)
    requires p.fx == [] && Players.AllEnabled(es) && Initial(init) && ValidRun(init, steps)
    requires var q := Players.Run(p, step, true, es); Pushes(steps, uid) == Saves(q.fx) && Players.SavedHere(q.fx)
    ensures var s, q := Run(init, steps), Players.Run(p, step, true, es);
      && (InMysql(s, uid) ==> Vec2(s.db.mysql[uid].body.x, s.db.mysql[uid].body.z) == q.p.pos)
      && (Drained(s) ==> (InMysql(s, uid) <==> uid !in s.lost && uid !in s.unmarked))
  {
    var q := Players.Run(p, step, true, es);
    Players.SnapshotsFaithful(p, step, true, es);
    Players.SavedWhere(p.p.pos, q.fx, q.p.pos);
    LastSaveIsLastSaved(q.fx);
    var last := LastSave(q.fx).value;
    SavedArrives(p, step, es, init, steps, uid, last);
    LastSaveIsLast(q.fx);
    RunNewest(init, steps, uid);
    DeliveryInit(init);
    DeliveryRun(init, steps);
    NewestRow(Run(init, steps), uid, last);
  }

  /** In particular the player's own calls, run alone, are such an interleaving, and leave the pipeline so
      that what they saved last can reach MySQL. */
  lemma CallsArrive(p: Players.Solo, step: real, es: seq<Players.Event>, init: State, t: nat, uid: Uid, last: Body)
    requires p.fx == [] && Players.AllEnabled(es) && Initial(init) && t < |init.producers|
    requires LastSave(Players.Run(p, step, true, es).fx) == Some(last)
    ensures var fx := Players.Run(p, step, true, es).fx;
      ValidRun(init, AllSteps(t, uid, fx)) && CanHold(Run(init, AllSteps(t, uid, fx)), uid, last)
  {
    var q := Players.Run(p, step, true, es);
    var calls := AllSteps(t, uid, q.fx);
    Players.SnapshotsFaithful(p, step, true, es);
    FaithfulPairs(p.p.pos, q.fx, q.p.pos);
    CallsRun(init, t, uid, q.fx);
    CallsPush(t, uid, q.fx);
    CallsFailureFree(t, uid, q.fx);
    NothingLost(init, calls);
    Convergence(init, calls, uid);
    SavedArrives(p, step, es, init, calls, uid, last);
    LastSaveIsLast(q.fx);
    RunNewest(init, calls, uid);
    DeliveryInit(init);
    DeliveryRun(init, calls);
    NewestRow(Run(init, calls), uid, last);
  }
}
