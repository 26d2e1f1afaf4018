/** The melee training environment of fsm_melee_env_v2.py on values: one step as a function, and what
    holds of whole runs. Random draws are inputs; the vector norm is a parameter. */
module MeleeModel {
  import opened Measures

  datatype Action = Idle | Patrol | Chase | Attack | Return

  datatype Config = Config(dt: real, maxSteps: int, norm: Vec2 -> real)

  ghost predicate IsNorm(norm: Vec2 -> real) {
    forall v :: norm(v) >= 0.0 && norm(v) * norm(v) == Dot(v, v)
  }

  const WORLD_HALF := 14.0
  const PATROL_SPEED := 2.5
  const CHASE_SPEED := 5.5
  const FLEE_SPEED := 3.5
  const TARGET_SPEED := 5.0
  const ATTACK_RANGE := 1.3
  const KEEP_ATTACK_RANGE := 1.8
  const ATTACK_DAMAGE := 10.0
  const ATTACK_CD := 0.9
  const MAX_HP := 100.0
  const LOW_HP_RATIO := 0.25
  const TARGET_ATTACK_RANGE := 1.2
  const TARGET_DAMAGE := 6.0
  const TARGET_ATTACK_CD := 1.0
  const TARGET_FLEE_DIST := 1.4
  const TARGET_CHASE_DIST := 7.0

  datatype Env = Env(
    stepCount: nat,
    mPos: Vec2, mHp: real, mCd: real,
    tPos: Vec2, tHp: real, tCd: real,
    active: bool,
    patrolDir: Vec2, patrolTimer: real)

  /** What the generator gives if a step asks it for a new patrol. */
  datatype Input = Input(action: Action, timer: real, dir: Vec2)

  datatype Out = Out(env: Env, hit: bool, blow: bool, reward: real, terminated: bool, truncated: bool)

  function Max(a: real, b: real): real { if a < b then b else a }

  function ClipOne(x: real): real {
    if x < -WORLD_HALF then -WORLD_HALF else if x > WORLD_HALF then WORLD_HALF else x
  }

  function Clip(p: Vec2): Vec2 { Vec2(ClipOne(p.x), ClipOne(p.y)) }

  predicate InArena(p: Vec2) { -WORLD_HALF <= p.x <= WORLD_HALF && -WORLD_HALF <= p.y <= WORLD_HALF }

  // ---------------------------------------------------------------- one step

  predicate LowHp(e: Env) { e.mHp / MAX_HP <= LOW_HP_RATIO }

  function Dist(cfg: Config, e: Env): real { cfg.norm(Minus(e.tPos, e.mPos)) }

  /** The direction to the target, or nothing if it is right here. */
  function DirToTarget(cfg: Config, e: Env): Vec2 {
    if Dist(cfg, e) < 0.000001 then ZERO else Scale(Minus(e.tPos, e.mPos), 1.0 / Dist(cfg, e))
  }

  function DistSeen(cfg: Config, e: Env): real {
    if Dist(cfg, e) < 0.000001 then 0.0 else Dist(cfg, e)
  }

  function Cooled(e: Env, dt: real): Env {
    e.(stepCount := e.stepCount + 1, mCd := Max(0.0, e.mCd - dt), tCd := Max(0.0, e.tCd - dt))
  }

  function Patrolling(e: Env, dt: real, timer: real, dir: Vec2): Env {
    if e.patrolTimer <= 0.0 then e.(patrolTimer := timer, patrolDir := dir)
    else e.(patrolTimer := Max(0.0, e.patrolTimer - dt))
  }

  /** Where the monster turns: to the target, or away from it. */
  function MonsterHeading(cfg: Config, e: Env, a: Action): Vec2 {
    if a.Return? then Negate(DirToTarget(cfg, e)) else DirToTarget(cfg, e)
  }

  /** The monster's own part of a step, given where it turns. */
  function Acted(e: Env, dt: real, i: Input, heading: Vec2): Env {
    match i.action
    case Patrol =>
      var p := Patrolling(e, dt, i.timer, i.dir);
      p.(mPos := Plus(p.mPos, Scale(p.patrolDir, PATROL_SPEED * dt)))
    case Chase => if e.active then e.(mPos := Plus(e.mPos, Scale(heading, CHASE_SPEED * dt))) else e
    case Return => if e.active then e.(mPos := Plus(e.mPos, Scale(heading, FLEE_SPEED * dt))) else e
    case Idle => e
    case Attack => e
  }

  function MonsterMoved(e: Env, dt: real, i: Input, heading: Vec2): Env {
    var a := Acted(e, dt, i, heading);
    a.(mPos := Clip(a.mPos))
  }

  function TargetHeading(cfg: Config, e: Env): Vec2 {
    if DistSeen(cfg, e) < TARGET_FLEE_DIST then DirToTarget(cfg, e)
    else if DistSeen(cfg, e) > TARGET_CHASE_DIST then Negate(DirToTarget(cfg, e))
    else ZERO
  }

  function TargetMoved(e: Env, dt: real, heading: Vec2): Env {
    e.(tPos := Clip(Plus(e.tPos, Scale(heading, TARGET_SPEED * dt))))
  }

  predicate MonsterHits(cfg: Config, e: Env, a: Action) {
    a.Attack? && e.mCd <= 0.0 && Dist(cfg, e) <= ATTACK_RANGE
  }

  predicate TargetHits(cfg: Config, e: Env) { e.tCd <= 0.0 && Dist(cfg, e) <= TARGET_ATTACK_RANGE }

  function MonsterStruck(e: Env, hit: bool): Env {
    if hit then e.(mCd := ATTACK_CD, tHp := Max(0.0, e.tHp - ATTACK_DAMAGE)) else e.(tHp := Max(0.0, e.tHp))
  }

  function TargetStruck(e: Env, blow: bool): Env {
    if blow then e.(tCd := TARGET_ATTACK_CD, mHp := Max(0.0, e.mHp - TARGET_DAMAGE)) else e.(mHp := Max(0.0, e.mHp))
  }

  /** The two bodies where they stand when blows are exchanged. */
  function Placed(cfg: Config, e: Env, i: Input): Env {
    var c := Cooled(e, cfg.dt);
    var m := MonsterMoved(c, cfg.dt, i, MonsterHeading(cfg, c, i.action));
    if e.active then TargetMoved(m, cfg.dt, TargetHeading(cfg, m)) else m
  }

  predicate Hit(cfg: Config, e: Env, i: Input) { e.active && MonsterHits(cfg, Placed(cfg, e, i), i.action) }

  predicate Blow(cfg: Config, e: Env, i: Input) { e.active && TargetHits(cfg, Placed(cfg, e, i)) }

  function Next(cfg: Config, e: Env, i: Input): Env {
    var p := Placed(cfg, e, i);
    if e.active then TargetStruck(MonsterStruck(p, Hit(cfg, e, i)), Blow(cfg, e, i)) else p
  }

  predicate Terminated(e: Env) { e.mHp <= 0.0 || (e.active && e.tHp <= 0.0) }

  predicate Truncated(cfg: Config, e: Env) { e.stepCount >= cfg.maxSteps }

  // ---------------------------------------------------------------- reward

  /** The pay for blows. */
  function Combat(hit: bool, blow: bool): real {
    (if hit then ATTACK_DAMAGE * 0.15 else 0.0) - (if blow then TARGET_DAMAGE * 0.08 else 0.0)
  }

  /** The pay for distance won while fleeing. */
  function Shaping(cfg: Config, e: Env, a: Action, e': Env): real {
    if e.active && LowHp(e) && a.Return? then (Dist(cfg, e') - Dist(cfg, e)) * 0.03 else 0.0
  }

  /** The small change: choice of action, and time. */
  function Habit(cfg: Config, e: Env, a: Action, e': Env): real {
    (if e.active then if a.Idle? then -0.01 else 0.0
     else if a.Patrol? || a.Idle? then 0.002 else -0.01)
    + (if LowHp(e) then if a.Return? then 0.02 else -0.02 else 0.0)
    + (if e.active && a.Attack? then if Dist(cfg, e') <= KEEP_ATTACK_RANGE then 0.01 else -0.01 else 0.0)
    - 0.001
  }

  function Terminal(e': Env): real {
    if e'.mHp <= 0.0 then -1.0 else if e'.active && e'.tHp <= 0.0 then 1.0 else 0.0
  }

  function Step(cfg: Config, e: Env, i: Input): Out {
    var e' := Next(cfg, e, i);
    var hit, blow := Hit(cfg, e, i), Blow(cfg, e, i);
    Out(e', hit, blow,
        Combat(hit, blow) + Shaping(cfg, e, i.action, e') + Habit(cfg, e, i.action, e') + Terminal(e'),
        Terminated(e'), Truncated(cfg, e'))
  }

  // ---------------------------------------------------------------- reset and runs

  datatype Start = Start(mPos: Vec2, draw: real, tPos: Vec2, dir: Vec2)

  predicate Drawn(s: Start) {
    && -4.0 <= s.mPos.x <= 4.0 && -4.0 <= s.mPos.y <= 4.0
    && -4.0 <= s.tPos.x <= 4.0 && -4.0 <= s.tPos.y <= 4.0
    && Dot(s.dir, s.dir) == 1.0
  }

  function Reset(cfg: Config, forceCombat: bool, s: Start): Env {
    var active := forceCombat || s.draw >= 0.35;
    var near := cfg.norm(Minus(s.tPos, s.mPos)) < 2.0;
    Env(0, s.mPos, 100.0, 0.0,
        if !active then Vec2(999.0, 999.0) else if near then Plus(s.tPos, Vec2(2.5, 0.0)) else s.tPos,
        if active then 100.0 else 0.0, 0.0, active, s.dir, 0.0)
  }

  predicate Fresh(e: Env) {
    && e.stepCount == 0 && e.mHp == 100.0 && e.mCd == 0.0 && e.tCd == 0.0
    && e.tHp == (if e.active then 100.0 else 0.0)
  }

  function Run(cfg: Config, e: Env, ins: seq<Input>): Env {
    if ins == [] then e else Next(cfg, Run(cfg, e, ins[..|ins| - 1]), ins[|ins| - 1])
  }

  /** The monster's hits in a run. */
  function Hits(cfg: Config, e: Env, ins: seq<Input>): nat {
    if ins == [] then 0
    else Hits(cfg, e, ins[..|ins| - 1]) + (if Hit(cfg, Run(cfg, e, ins[..|ins| - 1]), ins[|ins| - 1]) then 1 else 0)
  }

  /** The target's hits in a run. */
  function Blows(cfg: Config, e: Env, ins: seq<Input>): nat {
    if ins == [] then 0
    else Blows(cfg, e, ins[..|ins| - 1]) + (if Blow(cfg, Run(cfg, e, ins[..|ins| - 1]), ins[|ins| - 1]) then 1 else 0)
  }

  // ---------------------------------------------------------------- attack rate

  /** Movement changes neither hit points nor cooldowns. */
  lemma PlacedKeeps(cfg: Config, e: Env, i: Input)
    ensures var p := Placed(cfg, e, i);
      && p.mHp == e.mHp && p.tHp == e.tHp && p.active == e.active && p.stepCount == e.stepCount + 1
      && p.mCd == Max(0.0, e.mCd - cfg.dt) && p.tCd == Max(0.0, e.tCd - cfg.dt)
  {
  }

  /** What a step does to hit points and cooldowns, given who hits. */
  ghost predicate Accounts(e: Env, dt: real, hit: bool, blow: bool, e': Env) {
    && e'.active == e.active && e'.stepCount == e.stepCount + 1
    && (hit || blow ==> e.active)
    && (hit ==> e.mCd <= dt) && (blow ==> e.tCd <= dt)
    && e'.mCd == (if hit then ATTACK_CD else Max(0.0, e.mCd - dt))
    && e'.tCd == (if blow then TARGET_ATTACK_CD else Max(0.0, e.tCd - dt))
    && (e.active ==> e'.tHp == Max(0.0, if hit then e.tHp - ATTACK_DAMAGE else e.tHp))
    && (e.active ==> e'.mHp == Max(0.0, if blow then e.mHp - TARGET_DAMAGE else e.mHp))
    && (!e.active ==> e'.tHp == e.tHp && e'.mHp == e.mHp)
  }

  lemma StepAccount(cfg: Config, e: Env, i: Input)
    ensures Accounts(e, cfg.dt, Hit(cfg, e, i), Blow(cfg, e, i), Next(cfg, e, i))
  {
    PlacedKeeps(cfg, e, i);
  }

  /** A weapon of the given recovery time, n steps on, with a cooldown of cd left. */
  ghost predicate Paced(base: real, dt: real, n: nat, hits: nat, cd: real) {
    && 0.0 <= cd <= base && (hits == 0 ==> cd == 0.0)
    && (hits > 0 ==> n > 0 && Span(base, hits) - cd <= Span(dt, n - 1))
  }

  lemma SpanPositive(dt: real, n: nat)
    requires dt > 0.0
    ensures Span(dt, n) >= 0.0
  {
    if n > 0 { SpanGrows(dt, 0, n); }
  }

  lemma PacedOn(base: real, dt: real, n: nat, hits: nat, cd: real, hit: bool)
    requires Paced(base, dt, n, hits, cd) && base > 0.0 && dt > 0.0 && (hit ==> cd <= dt)
    ensures Paced(base, dt, n + 1, if hit then hits + 1 else hits, if hit then base else Max(0.0, cd - dt))
  {
    SpanPositive(dt, n);
  }

  ghost predicate BothPaced(dt: real, n: nat, hits: nat, blows: nat, e: Env) {
    Paced(ATTACK_CD, dt, n, hits, e.mCd) && Paced(TARGET_ATTACK_CD, dt, n, blows, e.tCd)
  }

  lemma BothPacedOn(dt: real, n: nat, hits: nat, blows: nat, e: Env, hit: bool, blow: bool, e': Env)
    requires dt > 0.0 && BothPaced(dt, n, hits, blows, e) && Accounts(e, dt, hit, blow, e')
    ensures BothPaced(dt, n + 1, if hit then hits + 1 else hits, if blow then blows + 1 else blows, e')
  {
    PacedOn(ATTACK_CD, dt, n, hits, e.mCd, hit);
    PacedOn(TARGET_ATTACK_CD, dt, n, blows, e.tCd, blow);
  }

  /** e' is where a run ends, with so many hits of either side. */
  ghost predicate Ends(cfg: Config, e: Env, ins: seq<Input>, hits: nat, blows: nat, e': Env) {
    hits == Hits(cfg, e, ins) && blows == Blows(cfg, e, ins) && e' == Run(cfg, e, ins)
  }

  /** The states of a run, and who hit between them. */
  datatype Trace = Trace(states: seq<Env>, hits: seq<bool>, blows: seq<bool>)

  ghost predicate Follows(t: Trace, dt: real) {
    && |t.states| == |t.hits| + 1 == |t.blows| + 1
    && forall k :: 0 <= k < |t.hits| ==> Accounts(t.states[k], dt, t.hits[k], t.blows[k], t.states[k + 1])
  }

  function Count(s: seq<bool>): nat {
    if s == [] then 0 else Count(s[..|s| - 1]) + (if s[|s| - 1] then 1 else 0)
  }

  function Shorter(t: Trace): Trace
    requires |t.states| > 0 && |t.hits| > 0 && |t.blows| > 0
  {
    Trace(t.states[..|t.states| - 1], t.hits[..|t.hits| - 1], t.blows[..|t.blows| - 1])
  }

  lemma EndsOn(cfg: Config, e: Env, ins: seq<Input>, hits: nat, blows: nat, b: Env, hit: bool, blow: bool, e': Env)
    requires ins != [] && Ends(cfg, e, ins[..|ins| - 1], hits, blows, b)
    requires hit == Hit(cfg, b, ins[|ins| - 1]) && blow == Blow(cfg, b, ins[|ins| - 1]) && e' == Next(cfg, b, ins[|ins| - 1])
    ensures Ends(cfg, e, ins, if hit then hits + 1 else hits, if blow then blows + 1 else blows, e')
  {
  }

  function Longer(t: Trace, hit: bool, blow: bool, e': Env): Trace {
    Trace(t.states + [e'], t.hits + [hit], t.blows + [blow])
  }

  lemma FollowsOn(t: Trace, dt: real, hit: bool, blow: bool, e': Env)
    requires Follows(t, dt) && Accounts(t.states[|t.hits|], dt, hit, blow, e')
    ensures var u := Longer(t, hit, blow, e');
      && Follows(u, dt) && |u.hits| == |t.hits| + 1 && u.states[0] == t.states[0] && u.states[|u.hits|] == e'
      && Count(u.hits) == (if hit then Count(t.hits) + 1 else Count(t.hits))
      && Count(u.blows) == (if blow then Count(t.blows) + 1 else Count(t.blows))
  {
    var u := Longer(t, hit, blow, e');
    assert u.hits[..|t.hits|] == t.hits && u.blows[..|t.blows|] == t.blows;
  }

  lemma {:induction false} TraceOf(cfg: Config, e: Env, ins: seq<Input>) returns (t: Trace)
    ensures Follows(t, cfg.dt) && |t.hits| == |ins| && t.states[0] == e
    ensures Ends(cfg, e, ins, Count(t.hits), Count(t.blows), t.states[|ins|])
    decreases |ins|
  {
    if ins == [] {
      t := Trace([e], [], []);
    } else {
      var before, i := ins[..|ins| - 1], ins[|ins| - 1];
      var b := TraceOf(cfg, e, before);
      var s := b.states[|before|];
      var hit, blow, e' := Hit(cfg, s, i), Blow(cfg, s, i), Next(cfg, s, i);
      StepAccount(cfg, s, i);
      FollowsOn(b, cfg.dt, hit, blow, e');
      EndsOn(cfg, e, ins, Count(b.hits), Count(b.blows), s, hit, blow, e');
      t := Longer(b, hit, blow, e');
    }
  }

  lemma {:induction false} TracePaced(t: Trace, dt: real)
    requires dt > 0.0 && Follows(t, dt) && Fresh(t.states[0])
    ensures BothPaced(dt, |t.hits|, Count(t.hits), Count(t.blows), t.states[|t.hits|])
    decreases |t.hits|
  {
    if t.hits != [] {
      var n, b := |t.hits| - 1, Shorter(t);
      TracePaced(b, dt);
      assert Accounts(t.states[n], dt, t.hits[n], t.blows[n], t.states[n + 1]);
      BothPacedOn(dt, n, Count(b.hits), Count(b.blows), t.states[n], t.hits[n], t.blows[n], t.states[n + 1]);
    }
  }

  lemma RunPaced(cfg: Config, e: Env, ins: seq<Input>, hits: nat, blows: nat, e': Env)
    requires cfg.dt > 0.0 && Fresh(e) && Ends(cfg, e, ins, hits, blows, e')
    ensures BothPaced(cfg.dt, |ins|, hits, blows, e')
  {
    var t := TraceOf(cfg, e, ins);
    TracePaced(t, cfg.dt);
  }

  /** So many hits in n steps leave room for the recovery between them. */
  ghost predicate Spaced(base: real, dt: real, n: nat, hits: nat) {
    hits > 0 ==> n > 0 && base * (hits - 1) as real <= dt * (n - 1) as real
  }

  lemma PaceBound(base: real, dt: real, n: nat, hits: nat, cd: real)
    requires Paced(base, dt, n, hits, cd)
    ensures Spaced(base, dt, n, hits)
  {
    if hits > 0 {
      SpanIs(base, hits - 1);
      SpanIs(dt, n - 1);
    }
  }

  /** Two hits of one weapon are at least its recovery time apart. */
  lemma AttackRate(cfg: Config, e: Env, ins: seq<Input>, hits: nat, blows: nat, e': Env)
    requires cfg.dt > 0.0 && Fresh(e) && Ends(cfg, e, ins, hits, blows, e')
    ensures Spaced(ATTACK_CD, cfg.dt, |ins|, hits) && Spaced(TARGET_ATTACK_CD, cfg.dt, |ins|, blows)
  {
    RunPaced(cfg, e, ins, hits, blows, e');
    PaceBound(ATTACK_CD, cfg.dt, |ins|, hits, e'.mCd);
    PaceBound(TARGET_ATTACK_CD, cfg.dt, |ins|, blows, e'.tCd);
  }

  // ---------------------------------------------------------------- hit points

  ghost predicate Counted(e: Env, hits: nat, blows: nat) {
    if e.active then
      e.tHp == Max(0.0, 100.0 - Span(ATTACK_DAMAGE, hits)) && e.mHp == Max(0.0, 100.0 - Span(TARGET_DAMAGE, blows))
    else hits == 0 && blows == 0 && e.tHp == 0.0 && e.mHp == 100.0
  }

  lemma CountedOn(hits: nat, blows: nat, e: Env, dt: real, hit: bool, blow: bool, e': Env)
    requires Counted(e, hits, blows) && Accounts(e, dt, hit, blow, e')
    ensures Counted(e', if hit then hits + 1 else hits, if blow then blows + 1 else blows)
  {
  }

  lemma {:induction false} TraceCounted(t: Trace, dt: real)
    requires Follows(t, dt) && Fresh(t.states[0])
    ensures var n, e' := |t.hits|, t.states[|t.hits|];
      e'.active == t.states[0].active && e'.stepCount == n && Counted(e', Count(t.hits), Count(t.blows))
    decreases |t.hits|
  {
    if t.hits != [] {
      var n, b := |t.hits| - 1, Shorter(t);
      TraceCounted(b, dt);
      assert Accounts(t.states[n], dt, t.hits[n], t.blows[n], t.states[n + 1]);
      CountedOn(Count(b.hits), Count(b.blows), t.states[n], dt, t.hits[n], t.blows[n], t.states[n + 1]);
    }
  }

  lemma RunCounted(cfg: Config, e: Env, ins: seq<Input>, hits: nat, blows: nat, e': Env)
    requires Fresh(e) && Ends(cfg, e, ins, hits, blows, e')
    ensures e'.active == e.active && e'.stepCount == |ins| && Counted(e', hits, blows)
  {
    var t := TraceOf(cfg, e, ins);
    TraceCounted(t, cfg.dt);
  }

  /** The hit points are what the hits of the other side left of 100. */
  ghost predicate HpLeft(e: Env, hits: nat, blows: nat) {
    && e.tHp == Max(0.0, 100.0 - 10.0 * hits as real)
    && e.mHp == Max(0.0, 100.0 - 6.0 * blows as real)
  }

  lemma LeftIsCounted(e: Env, hits: nat, blows: nat)
    requires Counted(e, hits, blows) && e.active
    ensures HpLeft(e, hits, blows)
  {
    SpanIs(ATTACK_DAMAGE, hits);
    SpanIs(TARGET_DAMAGE, blows);
  }

  /** No less than the target's rate of attack allows. */
  ghost predicate HpFloor(e: Env, dt: real, n: nat) {
    n > 0 ==> e.mHp >= 94.0 - 6.0 * (dt * (n - 1) as real)
  }

  lemma FloorFollows(e: Env, dt: real, n: nat, hits: nat, blows: nat)
    requires dt > 0.0 && HpLeft(e, hits, blows) && Spaced(TARGET_ATTACK_CD, dt, n, blows)
    ensures HpFloor(e, dt, n)
  {
    if blows == 0 && n > 0 { assert dt * (n - 1) as real >= 0.0; }
  }

  /** In terms of the hits, and of what the target's rate of attack allows. */
  lemma HpAccount(cfg: Config, e: Env, ins: seq<Input>, hits: nat, blows: nat, e': Env)
    requires cfg.dt > 0.0 && Fresh(e) && e.active && Ends(cfg, e, ins, hits, blows, e')
    ensures HpLeft(e', hits, blows) && HpFloor(e', cfg.dt, |ins|)
  {
    RunCounted(cfg, e, ins, hits, blows, e');
    LeftIsCounted(e', hits, blows);
    AttackRate(cfg, e, ins, hits, blows, e');
    FloorFollows(e', cfg.dt, |ins|, hits, blows);
  }

  lemma LowHpIs(e: Env)
    ensures LowHp(e) <==> e.mHp <= 25.0
  {
  }

  lemma {:induction false} TraceSinks(t: Trace, dt: real)
    requires Follows(t, dt) && t.states[0].mHp >= 0.0
    ensures 0.0 <= t.states[|t.states| - 1].mHp <= t.states[0].mHp
    decreases |t.states|
  {
    if |t.hits| > 0 { TraceSinks(Shorter(t), dt); }
  }

  /** The monster's hit points never rise; once low, they stay low. */
  lemma LowHpStays(cfg: Config, e: Env, ins: seq<Input>, hits: nat, blows: nat, e': Env)
    requires e.mHp >= 0.0 && Ends(cfg, e, ins, hits, blows, e')
    ensures 0.0 <= e'.mHp <= e.mHp && (LowHp(e) ==> LowHp(e'))
  {
    LowHpIs(e);
    LowHpIs(e');
    var t := TraceOf(cfg, e, ins);
    TraceSinks(t, cfg.dt);
  }

  // ---------------------------------------------------------------- arena and step length

  predicate Heading(v: Vec2) { v == ZERO || Dot(v, v) == 1.0 }

  ghost predicate Inside(e: Env) {
    InArena(e.mPos) && (e.active ==> InArena(e.tPos)) && Dot(e.patrolDir, e.patrolDir) == 1.0
  }

  lemma ResetInside(cfg: Config, forceCombat: bool, s: Start)
    requires Drawn(s)
    ensures Fresh(Reset(cfg, forceCombat, s)) && Inside(Reset(cfg, forceCombat, s))
  {
  }

  lemma SquareNearer(x: real, y: real)
    requires 0.0 <= x <= y || y <= x <= 0.0
    ensures x * x <= y * y
  {
    if 0.0 <= x <= y { ProductOrder(x, x, y, y); } else { ProductOrder(-x, -x, -y, -y); }
  }

  /** Clipping never takes a body further from where it was. */
  lemma ClipNearer(a: Vec2, b: Vec2, d: real)
    requires InArena(a) && Within(a, b, d)
    ensures Within(a, Clip(b), d)
  {
    SquareNearer(Clip(b).x - a.x, b.x - a.x);
    SquareNearer(Clip(b).y - a.y, b.y - a.y);
  }

  lemma Headed(from: Vec2, heading: Vec2, k: real, to: Vec2)
    requires Heading(heading) && k >= 0.0 && to == Plus(from, Scale(heading, k))
    ensures Within(from, to, k)
  {
    if heading == ZERO {
      assert to == from;
      Staying(from, k);
    } else {
      SteppedWithin(from, heading, k);
    }
  }

  lemma Walked(from: Vec2, heading: Vec2, k: real, over: Vec2, to: Vec2)
    requires InArena(from) && Heading(heading) && k >= 0.0
    requires over == Plus(from, Scale(heading, k)) && to == Clip(over)
    ensures InArena(to) && Within(from, to, k)
  {
    Headed(from, heading, k, over);
    ClipNearer(from, over, k);
  }

  lemma Rooted(norm: Vec2 -> real, v: Vec2)
    requires IsNorm(norm)
    ensures norm(v) >= 0.0 && norm(v) * norm(v) == Dot(v, v)
  {
  }

  lemma DirIsHeading(cfg: Config, e: Env)
    requires IsNorm(cfg.norm)
    ensures Heading(DirToTarget(cfg, e)) && Heading(Negate(DirToTarget(cfg, e)))
  {
    Rooted(cfg.norm, Minus(e.tPos, e.mPos));
    if Dist(cfg, e) >= 0.000001 { UnitLength(Minus(e.tPos, e.mPos), Dist(cfg, e)); }
    Opposite(DirToTarget(cfg, e));
  }

  lemma Opposite(v: Vec2)
    requires Heading(v)
    ensures Heading(Negate(v))
  {
    assert Dot(Negate(v), Negate(v)) == Dot(v, v);
  }

  /** How far an action can take the monster in a step. */
  function Stride(a: Action, dt: real): real {
    match a
    case Patrol => PATROL_SPEED * dt
    case Chase => CHASE_SPEED * dt
    case Return => FLEE_SPEED * dt
    case Idle => 0.0
    case Attack => 0.0
  }

  ghost predicate MonsterStays(from: Vec2, k: real, e': Env) {
    InArena(e'.mPos) && Within(from, e'.mPos, k) && Dot(e'.patrolDir, e'.patrolDir) == 1.0
  }

  ghost predicate TargetStays(from: Vec2, k: real, e': Env) { InArena(e'.tPos) && Within(from, e'.tPos, k) }

  lemma WalkStays(e: Env, heading: Vec2, k: real, a: Env, e': Env)
    requires InArena(e.mPos) && Heading(heading) && k >= 0.0 && Dot(a.patrolDir, a.patrolDir) == 1.0
    requires a.mPos == Plus(e.mPos, Scale(heading, k)) && e' == a.(mPos := Clip(a.mPos))
    ensures MonsterStays(e.mPos, k, e')
  {
    Walked(e.mPos, heading, k, a.mPos, e'.mPos);
  }

  lemma RestStays(e: Env, k: real, e': Env)
    requires InArena(e.mPos) && k >= 0.0 && Dot(e'.patrolDir, e'.patrolDir) == 1.0 && e'.mPos == Clip(e.mPos)
    ensures MonsterStays(e.mPos, k, e')
  {
    Stood(e.mPos, k, e'.mPos);
  }

  lemma PatrolStays(e: Env, dt: real, i: Input, heading: Vec2, e': Env)
    requires dt > 0.0 && Inside(e) && Dot(i.dir, i.dir) == 1.0 && i.action.Patrol?
    requires e' == MonsterMoved(e, dt, i, heading)
    ensures MonsterStays(e.mPos, PATROL_SPEED * dt, e')
  {
    var p := Patrolling(e, dt, i.timer, i.dir);
    assert p.patrolDir == e.patrolDir || p.patrolDir == i.dir;
    WalkStays(e, p.patrolDir, PATROL_SPEED * dt, Acted(e, dt, i, heading), e');
  }

  lemma TurnStays(e: Env, dt: real, i: Input, heading: Vec2, k: real, e': Env)
    requires Inside(e) && (i.action.Chase? || i.action.Return?) && Heading(heading)
    requires k >= 0.0 && k == Stride(i.action, dt) && e' == MonsterMoved(e, dt, i, heading)
    ensures MonsterStays(e.mPos, k, e')
  {
    if e.active { WalkStays(e, heading, k, Acted(e, dt, i, heading), e'); } else { RestStays(e, k, e'); }
  }

  lemma MonsterWalks(e: Env, dt: real, i: Input, heading: Vec2, k: real, e': Env)
    requires dt > 0.0 && Inside(e) && Dot(i.dir, i.dir) == 1.0 && Heading(heading)
    requires k == Stride(i.action, dt) && e' == MonsterMoved(e, dt, i, heading)
    ensures MonsterStays(e.mPos, k, e')
  {
    if i.action.Patrol? {
      PatrolStays(e, dt, i, heading, e');
    } else if i.action.Chase? || i.action.Return? {
      TurnStays(e, dt, i, heading, k, e');
    } else {
      RestStays(e, k, e');
    }
  }

  lemma TargetWalks(e: Env, dt: real, heading: Vec2, e': Env)
    requires dt > 0.0 && InArena(e.tPos) && Heading(heading) && e' == TargetMoved(e, dt, heading)
    ensures TargetStays(e.tPos, TARGET_SPEED * dt, e')
  {
    Walked(e.tPos, heading, TARGET_SPEED * dt, Plus(e.tPos, Scale(heading, TARGET_SPEED * dt)), e'.tPos);
  }

  lemma MonsterIsHeaded(cfg: Config, e: Env, a: Action)
    requires IsNorm(cfg.norm)
    ensures Heading(MonsterHeading(cfg, e, a))
  {
    DirIsHeading(cfg, e);
  }

  lemma TargetIsHeaded(cfg: Config, e: Env)
    requires IsNorm(cfg.norm)
    ensures Heading(TargetHeading(cfg, e))
  {
    DirIsHeading(cfg, e);
  }

  lemma Stood(from: Vec2, k: real, to: Vec2)
    requires InArena(from) && k >= 0.0 && to == Clip(from)
    ensures InArena(to) && Within(from, to, k)
  {
    assert to == from;
    Staying(from, k);
  }

  /** No step takes the monster further than the speed of its action allows, nor the target further
      than its own; both stay in the arena. */
  ghost predicate KeptInside(e: Env, a: Action, dt: real, e': Env) {
    && Inside(e')
    && Within(e.mPos, e'.mPos, Stride(a, dt))
    && (e.active ==> Within(e.tPos, e'.tPos, TARGET_SPEED * dt))
    && (!e.active ==> e'.tPos == e.tPos)
  }

  /** m is the state when the monster has moved, p when the target has, too. */
  ghost predicate Stages(cfg: Config, e: Env, i: Input, m: Env, p: Env, e': Env) {
    && m == MonsterMoved(Cooled(e, cfg.dt), cfg.dt, i, MonsterHeading(cfg, Cooled(e, cfg.dt), i.action))
    && (e.active ==> p == TargetMoved(m, cfg.dt, TargetHeading(cfg, m)))
    && (!e.active ==> p == m)
    && m.tPos == e.tPos && p.mPos == m.mPos && p.patrolDir == m.patrolDir
    && e'.mPos == p.mPos && e'.tPos == p.tPos && e'.patrolDir == p.patrolDir && e'.active == e.active
  }

  lemma PlacedInStages(cfg: Config, e: Env, i: Input, m: Env)
    requires m == MonsterMoved(Cooled(e, cfg.dt), cfg.dt, i, MonsterHeading(cfg, Cooled(e, cfg.dt), i.action))
    ensures Placed(cfg, e, i) == if e.active then TargetMoved(m, cfg.dt, TargetHeading(cfg, m)) else m
    ensures m.tPos == e.tPos && Placed(cfg, e, i).mPos == m.mPos && Placed(cfg, e, i).patrolDir == m.patrolDir
  {
  }

  lemma NextIsPlaced(cfg: Config, e: Env, i: Input, p: Env)
    requires p == Placed(cfg, e, i)
    ensures var e' := Next(cfg, e, i);
      e'.mPos == p.mPos && e'.tPos == p.tPos && e'.patrolDir == p.patrolDir && e'.active == e.active
  {
    PlacedKeeps(cfg, e, i);
  }

  lemma NextInStages(cfg: Config, e: Env, i: Input) returns (m: Env, p: Env)
    ensures Stages(cfg, e, i, m, p, Next(cfg, e, i))
  {
    m := MonsterMoved(Cooled(e, cfg.dt), cfg.dt, i, MonsterHeading(cfg, Cooled(e, cfg.dt), i.action));
    p := Placed(cfg, e, i);
    PlacedInStages(cfg, e, i, m);
    NextIsPlaced(cfg, e, i, p);
  }

  lemma MonsterStage(cfg: Config, e: Env, i: Input)
    requires IsNorm(cfg.norm) && cfg.dt > 0.0 && Inside(e) && Dot(i.dir, i.dir) == 1.0
    ensures var c := Cooled(e, cfg.dt);
      MonsterStays(e.mPos, Stride(i.action, cfg.dt), MonsterMoved(c, cfg.dt, i, MonsterHeading(cfg, c, i.action)))
  {
    var c := Cooled(e, cfg.dt);
    var h := MonsterHeading(cfg, c, i.action);
    MonsterIsHeaded(cfg, c, i.action);
    MonsterWalks(c, cfg.dt, i, h, Stride(i.action, cfg.dt), MonsterMoved(c, cfg.dt, i, h));
  }

  lemma TargetStage(cfg: Config, e: Env, m: Env, p: Env)
    requires IsNorm(cfg.norm) && cfg.dt > 0.0 && InArena(e.tPos) && m.tPos == e.tPos
    requires p == TargetMoved(m, cfg.dt, TargetHeading(cfg, m))
    ensures TargetStays(e.tPos, TARGET_SPEED * cfg.dt, p)
  {
    TargetIsHeaded(cfg, m);
    TargetWalks(m, cfg.dt, TargetHeading(cfg, m), p);
  }

  lemma Kept(e: Env, a: Action, dt: real, m: Env, p: Env, e': Env)
    requires MonsterStays(e.mPos, Stride(a, dt), m) && (e.active ==> TargetStays(e.tPos, TARGET_SPEED * dt, p))
    requires e'.mPos == m.mPos && e'.patrolDir == m.patrolDir && e'.active == e.active
    requires e'.tPos == if e.active then p.tPos else e.tPos
    ensures KeptInside(e, a, dt, e')
  {
  }

  lemma StepLength(cfg: Config, e: Env, i: Input)
    requires IsNorm(cfg.norm) && cfg.dt > 0.0 && Inside(e) && Dot(i.dir, i.dir) == 1.0
    ensures KeptInside(e, i.action, cfg.dt, Next(cfg, e, i))
  {
    var m, p := NextInStages(cfg, e, i);
    MonsterStage(cfg, e, i);
    if e.active { TargetStage(cfg, e, m, p); }
    Kept(e, i.action, cfg.dt, m, p, Next(cfg, e, i));
  }

  /** In every reachable state. */
  lemma {:induction false} Arena(cfg: Config, e: Env, ins: seq<Input>)
    requires IsNorm(cfg.norm) && cfg.dt > 0.0 && Inside(e)
    requires forall k :: 0 <= k < |ins| ==> Dot(ins[k].dir, ins[k].dir) == 1.0
    ensures Inside(Run(cfg, e, ins))
    decreases |ins|
  {
    if ins != [] {
      Arena(cfg, e, ins[..|ins| - 1]);
      StepLength(cfg, Run(cfg, e, ins[..|ins| - 1]), ins[|ins| - 1]);
    }
  }

  // ---------------------------------------------------------------- return

  /** The rewards of a run, and what they consist of besides the pay for blows. */
  datatype Tally = Tally(reward: real, shaping: real, habit: real, terminal: real)

  function Tallied(cfg: Config, e: Env, ins: seq<Input>): Tally {
    if ins == [] then Tally(0.0, 0.0, 0.0, 0.0)
    else
      var (t, b, i) := (Tallied(cfg, e, ins[..|ins| - 1]), Run(cfg, e, ins[..|ins| - 1]), ins[|ins| - 1]);
      var o := Step(cfg, b, i);
      Tally(t.reward + o.reward, t.shaping + Shaping(cfg, b, i.action, o.env),
            t.habit + Habit(cfg, b, i.action, o.env), t.terminal + Terminal(o.env))
  }

  ghost predicate Split(t: Tally, n: nat, hits: nat, blows: nat) {
    && t.reward == Span(1.5, hits) - Span(0.48, blows) + t.shaping + t.habit + t.terminal
    && -Span(0.031, n) <= t.habit <= Span(0.019, n)
  }

  lemma HabitSmall(cfg: Config, e: Env, a: Action, e': Env)
    ensures -0.031 <= Habit(cfg, e, a, e') <= 0.019
  {
  }

  lemma SplitOn(t: Tally, n: nat, h: nat, b: nat, hit: bool, blow: bool,
                shaping: real, habit: real, terminal: real, t': Tally)
    requires Split(t, n, h, b) && -0.031 <= habit <= 0.019
    requires t' == Tally(t.reward + (Combat(hit, blow) + shaping + habit + terminal),
                         t.shaping + shaping, t.habit + habit, t.terminal + terminal)
    ensures Split(t', n + 1, if hit then h + 1 else h, if blow then b + 1 else b)
  {
  }

  ghost predicate Pays(cfg: Config, e: Env, ins: seq<Input>, hits: nat, blows: nat, t: Tally) {
    hits == Hits(cfg, e, ins) && blows == Blows(cfg, e, ins) && t == Tallied(cfg, e, ins)
  }

  lemma LastPay(cfg: Config, e: Env, ins: seq<Input>, hits: nat, blows: nat, t: Tally)
    returns (h: nat, k: nat, u: Tally, hit: bool, blow: bool, shaping: real, habit: real, terminal: real)
    requires Pays(cfg, e, ins, hits, blows, t) && ins != []
    ensures Pays(cfg, e, ins[..|ins| - 1], h, k, u) && -0.031 <= habit <= 0.019
    ensures hits == (if hit then h + 1 else h) && blows == (if blow then k + 1 else k)
    ensures t == Tally(u.reward + (Combat(hit, blow) + shaping + habit + terminal),
                       u.shaping + shaping, u.habit + habit, u.terminal + terminal)
  {
    var before, i := ins[..|ins| - 1], ins[|ins| - 1];
    var b := Run(cfg, e, before);
    var o := Step(cfg, b, i);
    h, k, u := Hits(cfg, e, before), Blows(cfg, e, before), Tallied(cfg, e, before);
    hit, blow := o.hit, o.blow;
    shaping, habit, terminal := Shaping(cfg, b, i.action, o.env), Habit(cfg, b, i.action, o.env), Terminal(o.env);
    HabitSmall(cfg, b, i.action, o.env);
  }

  /** The return of any run: 1.5 for each hit, less 0.48 for each blow taken, the shaping, the small
      change within its bounds, and the terminal pay. */
  lemma {:induction false} ReturnSplit(cfg: Config, e: Env, ins: seq<Input>, hits: nat, blows: nat, t: Tally)
    requires Pays(cfg, e, ins, hits, blows, t)
    ensures Split(t, |ins|, hits, blows)
    decreases |ins|
  {
    if ins != [] {
      var h, k, u, hit, blow, shaping, habit, terminal := LastPay(cfg, e, ins, hits, blows, t);
      ReturnSplit(cfg, e, ins[..|ins| - 1], h, k, u);
      SplitOn(u, |ins| - 1, h, k, hit, blow, shaping, habit, terminal, t);
    }
  }

  // ---------------------------------------------------------------- how much the shaping can be

  lemma NormNear(norm: Vec2 -> real, u: Vec2, v: Vec2, d: real)
    requires IsNorm(norm) && Within(u, v, d)
    ensures norm(v) <= norm(u) + d
  {
    Rooted(norm, u);
    Rooted(norm, v);
    assert Minus(u, ZERO) == u && Minus(v, ZERO) == v;
    Triangle(ZERO, u, v, norm(u), d);
    if norm(v) > norm(u) + d { LongerSquare(norm(v), norm(u) + d); }
  }

  lemma Turned(u: Vec2, v: Vec2, d: real)
    requires Within(u, v, d)
    ensures Within(v, u, d)
  {
    assert Minus(u, v) == Negate(Minus(v, u));
  }

  /** If the ends of a line move by k and l, its length changes by no more than k + l. */
  lemma DistanceNear(norm: Vec2 -> real, m: Vec2, t: Vec2, m': Vec2, t': Vec2, k: real, l: real)
    requires IsNorm(norm) && Within(m, m', k) && Within(t, t', l)
    ensures norm(Minus(t, m)) - (k + l) <= norm(Minus(t', m')) <= norm(Minus(t, m)) + (k + l)
  {
    var before, between, after := Minus(t, m), Minus(t', m), Minus(t', m');
    assert Minus(between, before) == Minus(t', t) && Minus(after, between) == Minus(m, m');
    Turned(m, m', k);
    Triangle(before, between, after, l, k);
    Turned(before, after, l + k);
    NormNear(norm, before, after, l + k);
    NormNear(norm, after, before, l + k);
  }

  /** The most that a step's shaping can be. */
  function MostShaping(dt: real): real { 0.03 * ((FLEE_SPEED + TARGET_SPEED) * dt) }

  lemma ShapingOf(cfg: Config, e: Env, a: Action, e': Env)
    requires IsNorm(cfg.norm) && cfg.dt > 0.0
    requires e.active && a.Return? ==> Within(e.mPos, e'.mPos, FLEE_SPEED * cfg.dt) && Within(e.tPos, e'.tPos, TARGET_SPEED * cfg.dt)
    ensures -MostShaping(cfg.dt) <= Shaping(cfg, e, a, e') <= MostShaping(cfg.dt)
  {
    if e.active && a.Return? {
      DistanceNear(cfg.norm, e.mPos, e.tPos, e'.mPos, e'.tPos, FLEE_SPEED * cfg.dt, TARGET_SPEED * cfg.dt);
    }
  }

  lemma ShapingSmall(cfg: Config, e: Env, i: Input, e': Env)
    requires IsNorm(cfg.norm) && cfg.dt > 0.0 && KeptInside(e, i.action, cfg.dt, e')
    ensures -MostShaping(cfg.dt) <= Shaping(cfg, e, i.action, e') <= MostShaping(cfg.dt)
  {
    ShapingOf(cfg, e, i.action, e');
  }

  lemma {:induction false} ShapingBound(cfg: Config, e: Env, ins: seq<Input>, t: Tally)
    requires IsNorm(cfg.norm) && cfg.dt > 0.0 && Inside(e) && t == Tallied(cfg, e, ins)
    requires forall k :: 0 <= k < |ins| ==> Dot(ins[k].dir, ins[k].dir) == 1.0
    ensures -Span(MostShaping(cfg.dt), |ins|) <= t.shaping <= Span(MostShaping(cfg.dt), |ins|)
    decreases |ins|
  {
    if ins != [] {
      var before := ins[..|ins| - 1];
      Arena(cfg, e, before);
      ShapingBound(cfg, e, before, Tallied(cfg, e, before));
      StepLength(cfg, Run(cfg, e, before), ins[|ins| - 1]);
      ShapingSmall(cfg, Run(cfg, e, before), ins[|ins| - 1], Run(cfg, e, ins));
    }
  }

  /** So the return of a run of n steps is 1.5 for each hit, less 0.48 for each blow taken, and the
      terminal pay, up to n times 0.255 dt and 0.031 below or 0.019 above. */
  lemma ReturnBound(cfg: Config, e: Env, ins: seq<Input>, hits: nat, blows: nat, t: Tally)
    requires Pays(cfg, e, ins, hits, blows, t) && IsNorm(cfg.norm) && cfg.dt > 0.0 && Inside(e)
    requires forall k :: 0 <= k < |ins| ==> Dot(ins[k].dir, ins[k].dir) == 1.0
    ensures var pay, n := Span(1.5, hits) - Span(0.48, blows) + t.terminal, |ins|;
      pay - Span(MostShaping(cfg.dt), n) - Span(0.031, n) <= t.reward
        <= pay + Span(MostShaping(cfg.dt), n) + Span(0.019, n)
  {
    ReturnSplit(cfg, e, ins, hits, blows, t);
    ShapingBound(cfg, e, ins, t);
  }

  /** An episode: no step but the last may end it. */
  ghost predicate Episode(cfg: Config, e: Env, ins: seq<Input>) {
    forall k :: 0 < k < |ins| ==> !Terminated(Run(cfg, e, ins[..k]))
  }

  lemma Taken(ins: seq<Input>, m: nat, k: nat)
    requires k <= m <= |ins|
    ensures ins[..m][..k] == ins[..k]
  {
  }

  lemma TerminalStep(cfg: Config, e: Env, ins: seq<Input>)
    requires ins != []
    ensures Tallied(cfg, e, ins).terminal == Tallied(cfg, e, ins[..|ins| - 1]).terminal + Terminal(Run(cfg, e, ins))
  {
  }

  /** The terminal pay of an episode is that of its last state. */
  lemma {:induction false} TerminalOnce(cfg: Config, e: Env, ins: seq<Input>)
    requires Episode(cfg, e, ins)
    ensures Tallied(cfg, e, ins).terminal == if ins == [] then 0.0 else Terminal(Run(cfg, e, ins))
    decreases |ins|
  {
    if ins != [] {
      var before := ins[..|ins| - 1];
      forall k | 0 < k < |before| ensures !Terminated(Run(cfg, e, before[..k])) { Taken(ins, |before|, k); }
      TerminalOnce(cfg, e, before);
      TerminalStep(cfg, e, ins);
      if |ins| > 1 { assert !Terminated(Run(cfg, e, before)); }
    }
  }

  /** Fleeing with low hit points pays by the distance won from the first step to the last. */
  lemma {:induction false} FleeTelescopes(cfg: Config, e: Env, ins: seq<Input>, t: Tally, e': Env)
    requires e.active && 0.0 <= e.mHp && LowHp(e) && forall k :: 0 <= k < |ins| ==> ins[k].action.Return?
    requires t == Tallied(cfg, e, ins) && e' == Run(cfg, e, ins)
    ensures e'.active && t.shaping == 0.03 * (Dist(cfg, e') - Dist(cfg, e))
    decreases |ins|
  {
    if ins != [] {
      var before := ins[..|ins| - 1];
      var b := Run(cfg, e, before);
      FleeTelescopes(cfg, e, before, Tallied(cfg, e, before), b);
      LowHpStays(cfg, e, before, Hits(cfg, e, before), Blows(cfg, e, before), b);
      StepAccount(cfg, b, ins[|ins| - 1]);
    }
  }

  // ---------------------------------------------------------------- no target

  /** Without a target the monster keeps its hit points, the episode never terminates, and it is
      truncated from step max_steps on: for the first time exactly there, if that is positive. */
  lemma NoTarget(cfg: Config, e: Env, ins: seq<Input>, e': Env)
    requires Fresh(e) && !e.active && e' == Run(cfg, e, ins)
    ensures e'.mHp == 100.0 && !e'.active && !Terminated(e')
    ensures Truncated(cfg, e') <==> |ins| >= cfg.maxSteps
  {
    RunCounted(cfg, e, ins, Hits(cfg, e, ins), Blows(cfg, e, ins), e');
  }
}
