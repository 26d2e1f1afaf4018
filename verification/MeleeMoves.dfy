/** What one step of the melee environment does, told by distances, hit points and rewards alone. */
module MeleeMoves {
  import opened Measures
  import opened MeleeModel

  /** How far the target is from the monster. */
  function Gap(cfg: Config, m: Vec2, t: Vec2): real { cfg.norm(Minus(t, m)) }

  /** p, or the nearest place of the arena on each axis. */
  function Edged(p: Vec2): Vec2 {
    Vec2(if p.x < -14.0 then -14.0 else if p.x > 14.0 then 14.0 else p.x,
         if p.y < -14.0 then -14.0 else if p.y > 14.0 then 14.0 else p.y)
  }

  function Abs(x: real): real { if x < 0.0 then -x else x }

  // ---------------------------------------------------------------- along a line

  lemma RootIs(norm: Vec2 -> real, v: Vec2, x: real)
    requires IsNorm(norm) && x >= 0.0 && Dot(v, v) == x * x
    ensures norm(v) == x
  {
    Rooted(norm, v);
    if norm(v) < x { LongerSquare(x, norm(v)); } else if norm(v) > x { LongerSquare(norm(v), x); }
  }

  lemma LineLength(norm: Vec2 -> real, h: Vec2, v: Vec2, k: real)
    requires IsNorm(norm) && Dot(h, h) == 1.0 && v == Scale(h, k)
    ensures norm(v) == Abs(k)
  {
    ScaledLength(h, k);
    SquareOfAbs(k);
    RootIs(norm, v, Abs(k));
  }

  lemma SquareOfAbs(k: real)
    ensures Abs(k) * Abs(k) == k * k
  {
  }

  lemma Cancelled(x: real, d: real)
    requires d > 0.0
    ensures x * (1.0 / d) * d == x
  {
    var q := 1.0 / d;
    assert q * d == 1.0;
    Thrice(x, q, d);
  }

  lemma Thrice(a: real, b: real, c: real)
    ensures a * b * c == a * (b * c)
  {
  }

  /** The unit vector along u, and u as a multiple of it. */
  lemma UnitAlong(norm: Vec2 -> real, u: Vec2, d: real, h: Vec2)
    requires IsNorm(norm) && d == norm(u) && d > 0.0 && h == Scale(u, 1.0 / d)
    ensures Dot(h, h) == 1.0 && u == Scale(h, d)
  {
    Rooted(norm, u);
    UnitLength(u, d);
    Cancelled(u.x, d);
    Cancelled(u.y, d);
  }

  lemma Differ(a: real, b: real, c: real)
    ensures a * b - a * c == a * (b - c)
  {
  }

  lemma ScaleLess(h: Vec2, d: real, k: real)
    ensures Minus(Scale(h, d), Scale(h, k)) == Scale(h, d - k)
  {
    Differ(h.x, d, k);
    Differ(h.y, d, k);
  }

  /** From m, a step of length k towards t (away, if k is negative) leaves a gap of d - k. */
  lemma StepToward(cfg: Config, m: Vec2, t: Vec2, d: real, h: Vec2, k: real, m': Vec2)
    requires IsNorm(cfg.norm) && d == Gap(cfg, m, t) && d > 0.0 && h == Scale(Minus(t, m), 1.0 / d)
    requires m' == Plus(m, Scale(h, k))
    ensures Gap(cfg, m', t) == Abs(d - k)
  {
    var u := Minus(t, m);
    UnitAlong(cfg.norm, u, d, h);
    ScaleLess(h, d, k);
    assert Minus(t, m') == Minus(u, Scale(h, k));
    LineLength(cfg.norm, h, Minus(t, m'), d - k);
  }

  /** To t, a step of length k away from m (towards it, if k is negative) leaves a gap of d + k. */
  lemma StepFrom(cfg: Config, m: Vec2, t: Vec2, d: real, h: Vec2, k: real, t': Vec2)
    requires IsNorm(cfg.norm) && d == Gap(cfg, m, t) && d > 0.0 && h == Scale(Minus(t, m), 1.0 / d)
    requires t' == Plus(t, Scale(h, k))
    ensures Gap(cfg, m, t') == Abs(d + k)
  {
    var u := Minus(t, m);
    UnitAlong(cfg.norm, u, d, h);
    ScaleLess(h, d, -k);
    assert Minus(t', m) == Minus(u, Scale(h, -k));
    LineLength(cfg.norm, h, Minus(t', m), d + k);
  }

  lemma NegateScale(h: Vec2, k: real)
    ensures Scale(Negate(h), k) == Scale(h, -k)
  {
  }

  // ---------------------------------------------------------------- the monster

  lemma MonsterEnds(cfg: Config, e: Env, i: Input, c: Env)
    requires c == Cooled(e, cfg.dt)
    ensures Next(cfg, e, i).mPos == MonsterMoved(c, cfg.dt, i, MonsterHeading(cfg, c, i.action)).mPos
    ensures c.mPos == e.mPos && c.tPos == e.tPos && c.active == e.active
  {
  }

  lemma ChasedTo(cfg: Config, c: Env, i: Input, m': Vec2, d: real)
    requires c.active && i.action.Chase? && d == Gap(cfg, c.mPos, c.tPos) && d >= 0.000001
    requires m' == MonsterMoved(c, cfg.dt, i, MonsterHeading(cfg, c, i.action)).mPos
    ensures m' == Edged(Plus(c.mPos, Scale(Scale(Minus(c.tPos, c.mPos), 1.0 / d), 5.5 * cfg.dt)))
  {
  }

  lemma FledTo(cfg: Config, c: Env, i: Input, m': Vec2, d: real)
    requires c.active && i.action.Return? && d == Gap(cfg, c.mPos, c.tPos) && d >= 0.000001
    requires m' == MonsterMoved(c, cfg.dt, i, MonsterHeading(cfg, c, i.action)).mPos
    ensures m' == Edged(Plus(c.mPos, Scale(Scale(Minus(c.tPos, c.mPos), 1.0 / d), -(3.5 * cfg.dt))))
  {
    NegateScale(DirToTarget(cfg, c), 3.5 * cfg.dt);
  }

  /** A Chase step takes the monster 5.5 dt along the line to where the target stood (and past it, if that was
      nearer), and a Return step takes it exactly 3.5 dt further away: to `over`, or to the edge of the arena
      if that is beyond. */
  lemma ChaseAndReturn(cfg: Config, e: Env, i: Input, e': Env, d: real) returns (over: Vec2)
    requires IsNorm(cfg.norm) && cfg.dt > 0.0 && e.active && e' == Next(cfg, e, i) && (i.action.Chase? || i.action.Return?)
    requires d == Gap(cfg, e.mPos, e.tPos) && d >= 0.000001
    ensures e'.mPos == Edged(over)
    ensures Gap(cfg, over, e.tPos) == if i.action.Chase? then Abs(d - 5.5 * cfg.dt) else d + 3.5 * cfg.dt
  {
    var c, h := Cooled(e, cfg.dt), Scale(Minus(e.tPos, e.mPos), 1.0 / d);
    MonsterEnds(cfg, e, i, c);
    var k := if i.action.Chase? then 5.5 * cfg.dt else -(3.5 * cfg.dt);
    over := Plus(e.mPos, Scale(h, k));
    if i.action.Chase? { ChasedTo(cfg, c, i, e'.mPos, d); } else { FledTo(cfg, c, i, e'.mPos, d); }
    StepToward(cfg, e.mPos, e.tPos, d, h, k, over);
  }

  lemma ClipKeeps(p: Vec2)
    requires InArena(p)
    ensures Clip(p) == p
  {
  }

  lemma Stays(c: Env, dt: real, i: Input, h: Vec2)
    requires InArena(c.mPos) && !i.action.Patrol?
    requires i.action.Idle? || i.action.Attack? || !c.active || h == ZERO
    ensures MonsterMoved(c, dt, i, h).mPos == c.mPos
  {
    ClipKeeps(c.mPos);
    StillAt(c.mPos, h, CHASE_SPEED * dt);
    StillAt(c.mPos, h, FLEE_SPEED * dt);
  }

  lemma StillAt(p: Vec2, h: Vec2, k: real)
    ensures h == ZERO ==> Plus(p, Scale(h, k)) == p
  {
  }

  /** Within the arena, the monster stays where it is if it idles or attacks, or if it has no target to chase
      or to flee, or that is right here. */
  lemma OtherMoves(cfg: Config, e: Env, i: Input)
    requires InArena(e.mPos) && !i.action.Patrol?
    requires i.action.Idle? || i.action.Attack? || !e.active || Gap(cfg, e.mPos, e.tPos) < 0.000001
    ensures Next(cfg, e, i).mPos == e.mPos
  {
    var c := Cooled(e, cfg.dt);
    MonsterEnds(cfg, e, i, c);
    assert Negate(ZERO) == ZERO;
    Stays(c, cfg.dt, i, MonsterHeading(cfg, c, i.action));
  }

  /** Nothing but a Patrol step touches the patrol. */
  lemma PatrolKeeps(cfg: Config, e: Env, i: Input)
    requires !i.action.Patrol?
    ensures var e' := Next(cfg, e, i); e'.patrolDir == e.patrolDir && e'.patrolTimer == e.patrolTimer
  {
  }

  lemma PatrolTurns(c: Env, dt: real, i: Input, h: Vec2, e': Env)
    requires i.action.Patrol? && e' == MonsterMoved(c, dt, i, h)
    ensures var due := c.patrolTimer <= 0.0;
      && e'.patrolDir == (if due then i.dir else c.patrolDir)
      && e'.patrolTimer == (if due then i.timer else if c.patrolTimer < dt then 0.0 else c.patrolTimer - dt)
      && e'.mPos == Edged(Plus(c.mPos, Scale(e'.patrolDir, 2.5 * dt)))
  {
  }

  lemma PatrolEnds(cfg: Config, e: Env, i: Input, c: Env)
    requires c == Cooled(e, cfg.dt)
    ensures var e', m := Next(cfg, e, i), MonsterMoved(c, cfg.dt, i, MonsterHeading(cfg, c, i.action));
      e'.patrolDir == m.patrolDir && e'.patrolTimer == m.patrolTimer && e'.mPos == m.mPos
    ensures c.mPos == e.mPos && c.patrolDir == e.patrolDir && c.patrolTimer == e.patrolTimer
  {
  }

  /** A Patrol step takes the monster 2.5 dt along its patrol direction, which is a new one exactly if the
      timer had run out. */
  lemma PatrolMoves(cfg: Config, e: Env, i: Input, e': Env)
    requires i.action.Patrol? && e' == Next(cfg, e, i)
    ensures var due := e.patrolTimer <= 0.0;
      && e'.patrolDir == (if due then i.dir else e.patrolDir)
      && e'.patrolTimer == (if due then i.timer else if e.patrolTimer < cfg.dt then 0.0 else e.patrolTimer - cfg.dt)
    ensures e'.mPos == Edged(Plus(e.mPos, Scale(e'.patrolDir, 2.5 * cfg.dt)))
  {
    var c := Cooled(e, cfg.dt);
    var h := MonsterHeading(cfg, c, i.action);
    PatrolEnds(cfg, e, i, c);
    PatrolTurns(c, cfg.dt, i, h, MonsterMoved(c, cfg.dt, i, h));
  }

  // ---------------------------------------------------------------- the target

  lemma TargetEnds(cfg: Config, e: Env, i: Input) returns (m: Env)
    requires e.active
    ensures m.mPos == Next(cfg, e, i).mPos && m.tPos == e.tPos
    ensures Next(cfg, e, i).tPos == TargetMoved(m, cfg.dt, TargetHeading(cfg, m)).tPos
  {
    var c := Cooled(e, cfg.dt);
    m := MonsterMoved(c, cfg.dt, i, MonsterHeading(cfg, c, i.action));
  }

  lemma TargetTo(cfg: Config, m: Env, t': Vec2, d: real)
    requires d == Gap(cfg, m.mPos, m.tPos) && d >= 0.000001
    requires t' == TargetMoved(m, cfg.dt, TargetHeading(cfg, m)).tPos
    ensures var k := if d < 1.4 then 5.0 * cfg.dt else if d > 7.0 then -(5.0 * cfg.dt) else 0.0;
      t' == Edged(Plus(m.tPos, Scale(Scale(Minus(m.tPos, m.mPos), 1.0 / d), k)))
  {
    var h := DirToTarget(cfg, m);
    NegateScale(h, 5.0 * cfg.dt);
    assert Scale(ZERO, 5.0 * cfg.dt) == ZERO == Scale(h, 0.0);
  }

  /** The target goes 5 dt away from a monster that came nearer than 1.4, 5 dt along the line to one that is
      further than 7, and else stands: to `over`, or to the edge of the arena if that is beyond. */
  lemma TargetKeepsDistance(cfg: Config, e: Env, i: Input, e': Env, d: real) returns (over: Vec2)
    requires IsNorm(cfg.norm) && cfg.dt > 0.0 && e.active && e' == Next(cfg, e, i)
    requires d == Gap(cfg, e'.mPos, e.tPos) && d >= 0.000001
    ensures e'.tPos == Edged(over)
    ensures Gap(cfg, e'.mPos, over) == if d < 1.4 then d + 5.0 * cfg.dt else if d > 7.0 then Abs(d - 5.0 * cfg.dt) else d
    ensures 1.4 <= d <= 7.0 ==> over == e.tPos
  {
    var m := TargetEnds(cfg, e, i);
    TargetTo(cfg, m, e'.tPos, d);
    var k := if d < 1.4 then 5.0 * cfg.dt else if d > 7.0 then -(5.0 * cfg.dt) else 0.0;
    var h := Scale(Minus(e.tPos, e'.mPos), 1.0 / d);
    over := Plus(e.tPos, Scale(h, k));
    assert Scale(h, 0.0) == ZERO;
    StepFrom(cfg, e'.mPos, e.tPos, d, h, k, over);
  }

  /** A target that the monster came right up to stands, and one that is not there stays away. */
  lemma TargetStands(cfg: Config, e: Env, i: Input, e': Env)
    requires e' == Next(cfg, e, i)
    ensures e.active && Gap(cfg, e'.mPos, e.tPos) < 0.000001 ==> e'.tPos == Edged(e.tPos)
    ensures !e.active ==> e'.tPos == e.tPos
  {
    if e.active {
      var m := TargetEnds(cfg, e, i);
      StillAt(e.tPos, TargetHeading(cfg, m), TARGET_SPEED * cfg.dt);
    } else {
      PlacedIdle(cfg, e, i);
    }
  }

  lemma PlacedIdle(cfg: Config, e: Env, i: Input)
    requires !e.active
    ensures Next(cfg, e, i).tPos == e.tPos
  {
  }

  // ---------------------------------------------------------------- blows

  lemma HitsAre(cfg: Config, e: Env, i: Input, e': Env, gap: real)
    requires e' == Next(cfg, e, i) && gap == Gap(cfg, e'.mPos, e'.tPos)
    ensures Hit(cfg, e, i) <==> e.active && i.action.Attack? && e.mCd <= cfg.dt && gap <= 1.3
    ensures Blow(cfg, e, i) <==> e.active && e.tCd <= cfg.dt && gap <= 1.2
  {
    PlacedKeeps(cfg, e, i);
  }

  /** A step costs the target 10 hit points, and the monster's weapon rests for 0.9, exactly if the monster
      attacks with a weapon that has cooled down and they end up no further than 1.3 apart. Likewise it costs
      the monster 6, and the target's weapon rests for 1.0, whenever that has cooled down and they end up no
      further than 1.2 apart. */
  lemma BlowsExactly(cfg: Config, e: Env, i: Input, e': Env, gap: real)
    requires cfg.dt >= 0.0 && e' == Next(cfg, e, i) && gap == Gap(cfg, e'.mPos, e'.tPos)
    ensures var hit, blow := e.active && i.action.Attack? && e.mCd <= cfg.dt && gap <= 1.3,
                             e.active && e.tCd <= cfg.dt && gap <= 1.2;
      && e'.mCd == (if hit then 0.9 else if e.mCd < cfg.dt then 0.0 else e.mCd - cfg.dt)
      && e'.tCd == (if blow then 1.0 else if e.tCd < cfg.dt then 0.0 else e.tCd - cfg.dt)
      && (e.tHp >= 0.0 ==> e'.tHp == (if !hit then e.tHp else if e.tHp < 10.0 then 0.0 else e.tHp - 10.0))
      && (e.mHp >= 0.0 ==> e'.mHp == (if !blow then e.mHp else if e.mHp < 6.0 then 0.0 else e.mHp - 6.0))
      && (Step(cfg, e, i).hit <==> hit) && (Step(cfg, e, i).blow <==> blow)
      && e'.stepCount == e.stepCount + 1 && e'.active == e.active
  {
    HitsAre(cfg, e, i, e', gap);
    StepAccount(cfg, e, i);
  }

  /** The reward in full: 1.5 for a hit, 0.48 off for a blow, what idling and acting without a target cost or
      bring, 0.02 for running or not with at most 25 hit points, 0.03 times the distance won in doing so, 0.01
      for attacking within 1.8 or not, 0.001 for time, and 1 for how it ends. */
  lemma RewardExactly(cfg: Config, e: Env, i: Input, o: Out, e': Env, before: real, gap: real)
    requires o == Step(cfg, e, i) && e' == Next(cfg, e, i)
    requires before == Gap(cfg, e.mPos, e.tPos) && gap == Gap(cfg, e'.mPos, e'.tPos)
    ensures var a, low := i.action, e.mHp <= 25.0;
      o.reward == (if o.hit then 1.5 else 0.0) - (if o.blow then 0.48 else 0.0)
        + (if e.active && a.Idle? then -0.01 else 0.0)
        + (if e.active then 0.0 else if a.Patrol? || a.Idle? then 0.002 else -0.01)
        + (if !low then 0.0 else if a.Return? then 0.02 else -0.02)
        + (if e.active && low && a.Return? then (gap - before) * 0.03 else 0.0)
        + (if !(e.active && a.Attack?) then 0.0 else if gap <= 1.8 then 0.01 else -0.01)
        - 0.001
        + (if e'.mHp <= 0.0 then -1.0 else if e.active && e'.tHp <= 0.0 then 1.0 else 0.0)
    ensures o.env == e'
    ensures o.terminated <==> e'.mHp <= 0.0 || (e.active && e'.tHp <= 0.0)
    ensures o.truncated <==> e.stepCount + 1 >= cfg.maxSteps
  {
    LowHpIs(e);
    StepAccount(cfg, e, i);
  }
}
