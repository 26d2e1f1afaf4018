/** The FsmMeleeEnvV2 object of fsm_melee_env_v2.py, proved against the step function of MeleeModel. */
module MeleeEnv {
  import opened Measures
  import opened MeleeModel

  class FsmMeleeEnvV2 {
    const cfg: Config
    const forceCombat: bool
    var stepCount: nat
    var mPos: Vec2
    var mHp: real
    var mAttackCd: real
    var tPos: Vec2
    var tHp: real
    var tAttackCd: real
    var targetActive: bool
    var patrolDir: Vec2
    var patrolTimer: real

    function View(): Env
      reads this
    {
      Env(stepCount, mPos, mHp, mAttackCd, tPos, tHp, tAttackCd, targetActive, patrolDir, patrolTimer)
    }

    constructor (cfg: Config, forceCombat: bool)
      ensures this.cfg == cfg && this.forceCombat == forceCombat
      ensures View() == Env(0, ZERO, 100.0, 0.0, ZERO, 100.0, 0.0, true, Vec2(1.0, 0.0), 0.0)
    {
      this.cfg, this.forceCombat := cfg, forceCombat;
      stepCount, mPos, mHp, mAttackCd := 0, ZERO, 100.0, 0.0;
      tPos, tHp, tAttackCd, targetActive := ZERO, 100.0, 0.0, true;
      patrolDir, patrolTimer := Vec2(1.0, 0.0), 0.0;
    }

    method ResetEpisode(s: Start)
      modifies this
      ensures View() == Reset(cfg, forceCombat, s)
      ensures stepCount == 0 && mPos == s.mPos && mHp == 100.0 && mAttackCd == 0.0 && tAttackCd == 0.0
      ensures patrolDir == s.dir && patrolTimer == 0.0
      ensures targetActive <==> forceCombat || s.draw >= 0.35
      ensures targetActive ==> tHp == 100.0
      ensures targetActive ==>
        tPos == Vec2(if cfg.norm(Minus(s.tPos, s.mPos)) < 2.0 then s.tPos.x + 2.5 else s.tPos.x, s.tPos.y)
      ensures !targetActive ==> tHp == 0.0 && tPos == Vec2(999.0, 999.0)
    {
      stepCount := 0;
      mPos := s.mPos;
      mHp := 100.0;
      mAttackCd := 0.0;
      if forceCombat {
        targetActive := true;
      } else {
        targetActive := s.draw >= 0.35;
      }
      if targetActive {
        tPos := s.tPos;
        if cfg.norm(Minus(tPos, mPos)) < 2.0 {
          tPos := Plus(tPos, Vec2(2.5, 0.0));
        }
        tHp := 100.0;
        tAttackCd := 0.0;
      } else {
        tPos := Vec2(999.0, 999.0);
        tHp := 0.0;
        tAttackCd := 0.0;
      }
      patrolDir := s.dir;
      patrolTimer := 0.0;
    }

    function DistToTarget(): real
      reads this
    {
      cfg.norm(Minus(tPos, mPos))
    }

    method DirAndDist() returns (dir: Vec2, d: real)
      ensures dir == DirToTarget(cfg, View()) && d == DistSeen(cfg, View())
    {
      var v := Minus(tPos, mPos);
      d := cfg.norm(v);
      if d < 0.000001 {
        return ZERO, 0.0;
      }
      dir := Scale(v, 1.0 / d);
    }

    method MonsterMove(i: Input)
      modifies this`mPos, this`patrolTimer, this`patrolDir
      ensures View() == MonsterMoved(old(View()), cfg.dt, i, MonsterHeading(cfg, old(View()), i.action))
    {
      match i.action {
        case Idle =>
        case Patrol =>
          if patrolTimer <= 0.0 {
            patrolTimer := i.timer;
            patrolDir := i.dir;
          } else {
            patrolTimer := Max(0.0, patrolTimer - cfg.dt);
          }
          mPos := Plus(mPos, Scale(patrolDir, PATROL_SPEED * cfg.dt));
        case Chase =>
          if targetActive {
            var dir, _ := DirAndDist();
            mPos := Plus(mPos, Scale(dir, CHASE_SPEED * cfg.dt));
          }
        case Return =>
          if targetActive {
            var dir, _ := DirAndDist();
            mPos := Plus(mPos, Scale(Negate(dir), FLEE_SPEED * cfg.dt));
          }
        case Attack =>
      }
      mPos := Clip(mPos);
    }

    method TargetBotMove()
      modifies this`tPos
      ensures View() == TargetMoved(old(View()), cfg.dt, TargetHeading(cfg, old(View())))
    {
      var dir, dist := DirAndDist();
      var v := ZERO;
      if dist < TARGET_FLEE_DIST {
        v := dir;
      } else if dist > TARGET_CHASE_DIST {
        v := Negate(dir);
      }
      tPos := Plus(tPos, Scale(v, TARGET_SPEED * cfg.dt));
      tPos := Clip(tPos);
    }

    method ResolveMonsterAttack(a: Action) returns (dealt: real)
      modifies this`mAttackCd, this`tHp
      ensures var hit := MonsterHits(cfg, old(View()), a);
        View() == MonsterStruck(old(View()), hit) && dealt == if hit then ATTACK_DAMAGE else 0.0
    {
      dealt := 0.0;
      if a == Attack && mAttackCd <= 0.0 {
        if DistToTarget() <= ATTACK_RANGE {
          mAttackCd := ATTACK_CD;
          tHp := tHp - ATTACK_DAMAGE;
          dealt := ATTACK_DAMAGE;
        }
      }
      tHp := Max(0.0, tHp);
    }

    method ResolveTargetAttack() returns (taken: real)
      modifies this`tAttackCd, this`mHp
      ensures var blow := TargetHits(cfg, old(View()));
        View() == TargetStruck(old(View()), blow) && taken == if blow then TARGET_DAMAGE else 0.0
    {
      taken := 0.0;
      if tAttackCd <= 0.0 {
        if DistToTarget() <= TARGET_ATTACK_RANGE {
          tAttackCd := TARGET_ATTACK_CD;
          mHp := mHp - TARGET_DAMAGE;
          taken := TARGET_DAMAGE;
        }
      }
      mHp := Max(0.0, mHp);
    }

    /** The reward of a step that began in e, apart from its end. */
    method Reward(ghost e: Env, a: Action, lowhp: bool, prevDist: real, dealt: real, taken: real) returns (reward: real)
      requires e.active == targetActive && lowhp == LowHp(e) && (targetActive ==> prevDist == Dist(cfg, e))
      ensures reward == dealt * 0.15 - taken * 0.08 + Shaping(cfg, e, a, View()) + Habit(cfg, e, a, View())
    {
      reward := 0.0;
      reward := reward + dealt * 0.15;
      reward := reward - taken * 0.08;
      if targetActive && a == Idle {
        reward := reward - 0.01;
      }
      if !targetActive {
        if a == Patrol || a == Idle {
          reward := reward + 0.002;
        } else {
          reward := reward - 0.01;
        }
      }
      if lowhp {
        if a == Return {
          reward := reward + 0.02;
        } else {
          reward := reward - 0.02;
        }
      }
      if targetActive && lowhp && a == Return {
        reward := reward + (DistToTarget() - prevDist) * 0.03;
      }
      if targetActive && a == Attack {
        if DistToTarget() <= KEEP_ATTACK_RANGE {
          reward := reward + 0.01;
        } else {
          reward := reward - 0.01;
        }
      }
      reward := reward - 0.001;
    }

    method CoolDown()
      modifies this`stepCount, this`mAttackCd, this`tAttackCd
      ensures View() == Cooled(old(View()), cfg.dt)
    {
      stepCount := stepCount + 1;
      mAttackCd := Max(0.0, mAttackCd - cfg.dt);
      tAttackCd := Max(0.0, tAttackCd - cfg.dt);
    }

    method MoveBoth(i: Input)
      modifies this`mPos, this`patrolTimer, this`patrolDir, this`tPos
      ensures forall e :: old(View()) == Cooled(e, cfg.dt) ==> View() == Placed(cfg, e, i)
    {
      MonsterMove(i);
      if targetActive {
        TargetBotMove();
      }
    }

    method ExchangeBlows(a: Action) returns (dealt: real, taken: real)
      modifies this`mAttackCd, this`tHp, this`tAttackCd, this`mHp
      ensures !targetActive ==> View() == old(View()) && dealt == taken == 0.0
      ensures targetActive ==>
        var p, hit := old(View()), MonsterHits(cfg, old(View()), a);
        var blow := TargetHits(cfg, MonsterStruck(p, hit));
        && View() == TargetStruck(MonsterStruck(p, hit), blow)
        && dealt == (if hit then ATTACK_DAMAGE else 0.0) && taken == if blow then TARGET_DAMAGE else 0.0
    {
      dealt, taken := 0.0, 0.0;
      if targetActive {
        dealt := ResolveMonsterAttack(a);
        taken := ResolveTargetAttack();
      }
    }

    /** Moves and blows. */
    method Play(i: Input) returns (dealt: real, taken: real)
      modifies this
      ensures View() == Next(cfg, old(View()), i)
      ensures dealt == (if Hit(cfg, old(View()), i) then ATTACK_DAMAGE else 0.0)
      ensures taken == (if Blow(cfg, old(View()), i) then TARGET_DAMAGE else 0.0)
    {
      ghost var e := View();
      CoolDown();
      MoveBoth(i);
      ghost var p := View();
      PlacedKeeps(cfg, e, i);
      dealt, taken := ExchangeBlows(i.action);
      if targetActive { Exchanged(cfg, e, i, p, View()); } else { Untouched(cfg, e, i); }
    }

    method StepOnce(i: Input)
      returns (reward: real, terminated: bool, truncated: bool, dealt: real, taken: real, lowhp: bool)
      modifies this
      ensures var o := Step(cfg, old(View()), i);
        && View() == o.env && reward == o.reward && terminated == o.terminated && truncated == o.truncated
        && dealt == (if o.hit then ATTACK_DAMAGE else 0.0) && taken == (if o.blow then TARGET_DAMAGE else 0.0)
      ensures lowhp <==> old(mHp) <= 25.0
      ensures stepCount == old(stepCount) + 1 && targetActive == old(targetActive)
      ensures terminated <==> mHp <= 0.0 || (targetActive && tHp <= 0.0)
      ensures truncated <==> stepCount >= cfg.maxSteps
      ensures dealt == 10.0 || dealt == 0.0
      ensures taken == 6.0 || taken == 0.0
    {
      ghost var e := View();
      LowHpIs(e);
      lowhp := mHp / MAX_HP <= LOW_HP_RATIO;
      var prevDist := if targetActive then DistToTarget() else 0.0;
      dealt, taken := Play(i);
      StepAccount(cfg, e, i);
      reward := Reward(e, i.action, lowhp, prevDist, dealt, taken);
      terminated, truncated := false, false;
      if mHp <= 0.0 {
        terminated := true;
        reward := reward - 1.0;
      } else if targetActive && tHp <= 0.0 {
        terminated := true;
        reward := reward + 1.0;
      }
      if stepCount >= cfg.maxSteps {
        truncated := true;
      }
    }
  }

  lemma Untouched(cfg: Config, e: Env, i: Input)
    requires !e.active
    ensures Next(cfg, e, i) == Placed(cfg, e, i) && !Hit(cfg, e, i) && !Blow(cfg, e, i)
  {
  }

  lemma Exchanged(cfg: Config, e: Env, i: Input, p: Env, e': Env)
    requires e.active && p == Placed(cfg, e, i)
    requires var struck := MonsterStruck(p, MonsterHits(cfg, p, i.action)); e' == TargetStruck(struck, TargetHits(cfg, struck))
    ensures e' == Next(cfg, e, i)
    ensures MonsterHits(cfg, p, i.action) == Hit(cfg, e, i)
    ensures TargetHits(cfg, MonsterStruck(p, MonsterHits(cfg, p, i.action))) == Blow(cfg, e, i)
  {
  }
}
