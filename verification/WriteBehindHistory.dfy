/** What the history says of a drained system, in terms of the steps taken: which steps store an update,
    and which give up on it. */
module WriteBehindHistory {
  import opened WriteBehindModel
  import opened WriteBehindStores
  import opened WriteBehindDelivery
  import opened WriteBehindStranded

  /** An upsert that takes a row with u's newest snapshot. */
  ghost predicate Takes(s: State, step: Step, u: Uid)
    requires Enabled(s, step)
  {
    step.Upsert? && exists i :: 0 <= i < step.n && s.worker.rows[i].uid == u && s.worker.rows[i].ver == LatestVer(s, u)
  }

  /** A failed call that ends a job of u. */
  predicate Drops(s: State, step: Step, u: Uid) {
    match step
    case Connect(ok) => s.worker.Connecting? && !ok && u in s.worker.job
    case Reconnect(ok) => s.worker.Reconnecting? && !ok && u in s.worker.job
    case Fetch(ok) => s.worker.Fetching? && !ok && u in s.worker.job
    case Upsert(_, ok) => s.worker.Upserting? && !ok && u in s.worker.job
    case _ => false
  }

  /** A mark of u, or a rejected batch that marks it again. */
  ghost predicate Marks(s: State, step: Step, u: Uid)
    requires Enabled(s, step)
  {
    match step
    case Mark(t) => s.producers[t].uid == u
    case MarkOnly(v) => v == u
    case Remark => s.timer.uids[s.timer.k] == u
    case _ => false
  }

  /** `taken`: an upsert took u's newest snapshot since that was pushed. `given`: a job of u was dropped
      while that was not so, and u was neither marked nor taken since. */
  datatype Fate = Fate(taken: bool, given: bool)

  ghost function FateAfter(s: State, step: Step, u: Uid, f: Fate): Fate
    requires Enabled(s, step)
  {
    var taken := if step.Push? && step.uid == u then false else f.taken || Takes(s, step, u);
    Fate(taken, !Marks(s, step, u) && !taken && (f.given || Drops(s, step, u)))
  }

  ghost function FateOf(s: State, steps: seq<Step>, u: Uid, f: Fate): Fate
    requires ValidRun(s, steps)
    decreases |steps|
  {
    if steps == [] then f else FateOf(Apply(s, steps[0]), steps[1..], u, FateAfter(s, steps[0], u, f))
  }

  /** The fate tells what MySQL holds, and whose marks are gone. */
  ghost predicate Tells(s: State, u: Uid, f: Fate) {
    (f.taken <==> InMysql(s, u)) && (f.given <==> u in s.unmarked)
  }

  // ---------------------------------------------------------------- what MySQL holds

  lemma TakenIn(s: State, step: Step, u: Uid)
    requires Enabled(s, step) && StoresInv(s) && Takes(s, step, u)
    ensures InMysql(Apply(s, step), u)
  {
    var rows := s.worker.rows[..step.n];
    var i :| 0 <= i < step.n && s.worker.rows[i].uid == u && s.worker.rows[i].ver == LatestVer(s, u);
    assert rows[i] in rows;
    forall r | r in rows ensures r in s.worker.rows {}
    ApplyRows(s.db.mysql, rows, s.db.redis, u);
    assert Apply(s, step).log == s.log && Apply(s, step).db.mysql == ApplyAll(s.db.mysql, rows);
  }

  lemma NotTaken(s: State, step: Step, u: Uid)
    requires step.Upsert? && Enabled(s, step) && StoresInv(s) && !Takes(s, step, u)
    ensures !InMysql(s, u) ==> !InMysql(Apply(s, step), u)
  {
    var rows := s.worker.rows[..step.n];
    forall r | r in rows ensures r in s.worker.rows && (r.uid == u ==> r.ver != LatestVer(s, u)) {
      var i :| 0 <= i < |rows| && rows[i] == r;
    }
    if !InMysql(s, u) { UpsertStays(s.db.mysql, rows, s.db.redis, u, LatestVer(s, u)); }
    assert Apply(s, step).log == s.log && Apply(s, step).db.mysql == ApplyAll(s.db.mysql, rows);
  }

  /** A row of a uid without snapshots is one of an earlier run. */
  lemma OldRows(s: State, u: Uid)
    requires StoresInv(s) && LatestVer(s, u) == 0
    ensures u in s.db.mysql ==> s.db.mysql[u].ver == 0
  {
    if u in s.db.mysql && s.db.mysql[u].ver > 0 {
      MysqlRowIs(s, u);
      LatestIsLast(s.log, |s.log|, u, s.db.mysql[u].ver - 1);
    }
  }

  lemma NewestStays(s: State, step: Step, u: Uid)
    requires step.Upsert? && Enabled(s, step) && StoresInv(s) && InMysql(s, u)
    ensures InMysql(Apply(s, step), u)
  {
    if LatestVer(s, u) > 0 {
      StillNewest(s, step, u);
    } else {
      StoresStep(s, step);
      NoRegressionStep(s, step);
      OldRows(Apply(s, step), u);
    }
  }

  lemma PushedBehind(s: State, step: Step, u: Uid)
    requires step.Push? && Enabled(s, step) && StoresInv(s)
    ensures InMysql(Apply(s, step), u) <==> step.uid != u && InMysql(s, u)
  {
    if step.uid != u { LatestStays(s, step, u); }
    if u in s.db.mysql && s.db.mysql[u].ver > 0 { MysqlRowIs(s, u); }
  }

  lemma TakenStep(s: State, step: Step, u: Uid, f: Fate)
    requires Enabled(s, step) && StoresInv(s) && (f.taken <==> InMysql(s, u))
    ensures FateAfter(s, step, u, f).taken <==> InMysql(Apply(s, step), u)
  {
    if step.Push? {
      PushedBehind(s, step, u);
    } else if step.Upsert? {
      if Takes(s, step, u) { TakenIn(s, step, u); } else { NotTaken(s, step, u); }
      if InMysql(s, u) { NewestStays(s, step, u); }
    } else {
      MysqlUntouched(s, step);
      assert Apply(s, step).log == s.log;
    }
  }

  // ---------------------------------------------------------------- whose marks are gone

  lemma GivenStep(s: State, step: Step, u: Uid, f: Fate)
    requires Enabled(s, step) && Tells(s, u, f) && BehindOnUnmarked(s) && BehindOnUnmarked(Apply(s, step))
    requires FateAfter(s, step, u, f).taken <==> InMysql(Apply(s, step), u)
    ensures FateAfter(s, step, u, f).given <==> u in Apply(s, step).unmarked
  {
  }

  lemma {:induction false} FateTells(s: State, steps: seq<Step>, u: Uid, f: Fate)
    requires StoresInv(s) && BehindOnUnmarked(s) && ValidRun(s, steps) && Tells(s, u, f)
    ensures Tells(Run(s, steps), u, FateOf(s, steps, u, f))
    decreases |steps|
  {
    if steps != [] {
      TakenStep(s, steps[0], u, f);
      BehindStep(s, steps[0]);
      GivenStep(s, steps[0], u, f);
      StoresStep(s, steps[0]);
      FateTells(Apply(s, steps[0]), steps[1..], u, FateAfter(s, steps[0], u, f));
    }
  }

  /** In every run: MySQL has a uid's newest snapshot exactly if some upsert took it since it was pushed. Once
      nothing is left to do, that is so exactly if no failed Redis batch took it, and no job of the uid was
      dropped before an upsert took it, without a mark or an upsert that took it since. */
  lemma StoredBySteps(init: State, steps: seq<Step>, u: Uid)
    requires Initial(init) && ValidRun(init, steps) && LatestVer(Run(init, steps), u) > 0
    ensures var s, f := Run(init, steps), FateOf(init, steps, u, Fate(u in init.db.mysql, false));
      && (InMysql(s, u) <==> f.taken)
      && (Drained(s) ==> (f.taken <==> u !in s.lost && !f.given))
  {
    DeliveryInit(init);
    FateTells(init, steps, u, Fate(u in init.db.mysql, false));
    if Drained(Run(init, steps)) { DrainedExactly(init, steps, u); }
  }
}
