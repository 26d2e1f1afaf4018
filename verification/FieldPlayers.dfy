/** One player of worker/fieldWorker.cpp as a state machine over input and frames, with the calls it
    makes on the way: announcements, moves on the interest grid, snapshots and dirty marks. */
module FieldPlayers {
  import opened Collections
  import opened FieldClock
  import opened Measures

  const MOVE_SPEED := 4.5
  const PLAYER_SPEED := 5.0
  const INPUT_TIMEOUT := 0.5
  const DEAD_ZONE := 0.0001
  const DIRTY_DIST := 0.10
  const DIRTY_INTERVAL := 0.25
  const MAX_PLAYER_TICKS := 5

  datatype MoveState = MoveState(dir: Vec2, moving: bool, speed: real, lastInput: real)

  /** What a Player object holds; `hp` and `sp` as in PlayerStat. */
  datatype Avatar = Avatar(pos: Vec2, mv: MoveState, hp: int, maxHp: int, sp: int, lastMark: real)

  datatype Anim = Idle | Chase | Attack | Dead

  datatype Effect =
    | Shown(anim: Anim)
    | Placed(pos: Vec2)
    | Moved(pos: Vec2)
    | Enqueued(pos: Vec2, hp: int, sp: int)
    | Marked
    | Dropped

  datatype Outcome = Outcome(p: Avatar, fx: seq<Effect>)

  // ---------------------------------------------------------------- operations

  /** A snapshot is enqueued first, then the player is marked. */
  function Saving(p: Avatar, writer: bool): seq<Effect> {
    (if writer then [Enqueued(p.pos, p.hp, p.sp)] else []) + [Marked]
  }

  function Stopped(mv: MoveState): MoveState { mv.(moving := false, dir := ZERO, speed := 0.0) }

  /** Input from the player's own client; r is the root of dir's square length. */
  function Steered(p: Avatar, now: real, dir: Vec2, r: real): Outcome
    requires Dot(dir, dir) >= DEAD_ZONE ==> r > 0.0
  {
    var mv := p.mv.(lastInput := now);
    if Dot(dir, dir) < DEAD_ZONE then
      if !mv.moving then Outcome(p.(mv := mv), []) else Outcome(p.(mv := Stopped(mv)), [Shown(Idle)])
    else
      Outcome(p.(mv := mv.(moving := true, dir := Scale(dir, 1.0 / r), speed := MOVE_SPEED)),
              if mv.moving then [] else [Shown(Chase)])
  }

  predicate TimedOut(p: Avatar, now: real) { p.mv.moving && now - p.mv.lastInput > INPUT_TIMEOUT }

  function Stride(speed: real, step: real): real { speed * step }

  function Ahead(p: Avatar, step: real): Vec2 { Plus(p.pos, Scale(p.mv.dir, Stride(p.mv.speed, step))) }

  predicate NeedsSave(p: Avatar, now: real, to: Vec2) {
    Dot(Minus(to, p.pos), Minus(to, p.pos)) >= DIRTY_DIST * DIRTY_DIST && now - p.lastMark >= DIRTY_INTERVAL
  }

  function Ticked(p: Avatar, now: real, step: real, writer: bool): Outcome {
    if TimedOut(p, now) then
      Outcome(p.(mv := Stopped(p.mv), lastMark := now), [Shown(Idle)] + Saving(p, writer))
    else if !p.mv.moving then Outcome(p, [])
    else
      var to := Ahead(p, step);
      var there := p.(pos := to);
      if NeedsSave(p, now, to) then Outcome(there.(lastMark := now), [Moved(to)] + Saving(there, writer))
      else Outcome(there, [Moved(to)])
  }

  /** A monster's blow: new hit points are marked but not enqueued. */
  function Hurt(p: Avatar, now: real, damage: int): Outcome {
    var hp := if p.hp - damage < 0 then 0 else p.hp - damage;
    if hp == p.hp then Outcome(p, [])
    else
      var kept := if hp > p.maxHp then p.maxHp else hp;
      Outcome(p.(hp := kept, lastMark := now), [Marked] + (if hp <= 0 then [Shown(Dead)] else []))
  }

  // ---------------------------------------------------------------- the machine

  /** The field's clock, as far as players go, and one player with all the calls made for it. */
  datatype Solo = Solo(time: real, clock: Clock, p: Avatar, fx: seq<Effect>)

  datatype Event =
    | Enter(pos: Vec2)
    | Steer(dir: Vec2, r: real)
    | Skill
    | Blow(damage: int)
    | Frame(dt: real)

  function Done(s: Solo, o: Outcome): Solo { s.(p := o.p, fx := s.fx + o.fx) }

  function TickOnce(s: Solo, step: real, writer: bool): Solo {
    Done(s, Ticked(s.p, s.time, step, writer)).(clock := Clock(s.clock.acc - step, s.clock.ticks + 1))
  }

  /** The catch-up loop of update_world; all its ticks see the same time. */
  function CatchUp(s: Solo, step: real, writer: bool, budget: nat): Solo
    decreases budget
  {
    if budget == 0 || s.clock.acc < step then s
    else CatchUp(TickOnce(s, step, writer), step, writer, budget - 1)
  }

  function Started(s: Solo, dt: real): Solo { s.(time := s.time + dt, clock := s.clock.(acc := s.clock.acc + dt)) }

  predicate Enabled(e: Event) {
    e.Steer? && Dot(e.dir, e.dir) >= DEAD_ZONE ==> e.r > 0.0 && e.r * e.r == Dot(e.dir, e.dir)
  }

  function Apply(s: Solo, step: real, writer: bool, e: Event): Solo
    requires Enabled(e)
  {
    match e
    case Enter(pos) => s.(p := s.p.(pos := pos), fx := s.fx + [Placed(pos)])
    case Steer(dir, r) => Done(s, Steered(s.p, s.time, dir, r))
    case Skill => s.(fx := s.fx + [Shown(Attack)])
    case Blow(damage) => Done(s, Hurt(s.p, s.time, damage))
    case Frame(dt) =>
      if dt <= 0.0 then s
      else CatchUp(Started(s, dt), step, writer, MAX_PLAYER_TICKS)
  }

  predicate AllEnabled(es: seq<Event>) { forall i :: 0 <= i < |es| ==> Enabled(es[i]) }

  function Run(s: Solo, step: real, writer: bool, es: seq<Event>): Solo
    requires AllEnabled(es)
  {
    if es == [] then s else Apply(Run(s, step, writer, es[..|es| - 1]), step, writer, es[|es| - 1])
  }

  /** A player as it is created: at rest, with some speed. */
  predicate New(p: Avatar) { !p.mv.moving && p.mv.dir == ZERO }

  // ---------------------------------------------------------------- movement state

  predicate Steady(p: Avatar) {
    if p.mv.moving then Dot(p.mv.dir, p.mv.dir) == 1.0 && p.mv.speed == MOVE_SPEED else p.mv.dir == ZERO
  }

  /** The start and stop announcements; skills and death are announced besides. */
  function Announced(fx: seq<Effect>): seq<Anim> {
    if fx == [] then [] else Announced(fx[..|fx| - 1]) + Announces(fx[|fx| - 1])
  }

  function Announces(e: Effect): seq<Anim> {
    if e.Shown? && (e.anim.Idle? || e.anim.Chase?) then [e.anim] else []
  }

  lemma {:induction false} AnnouncedConcat(a: seq<Effect>, b: seq<Effect>)
    ensures Announced(a + b) == Announced(a) + Announced(b)
    decreases |b|
  {
    if b == [] {
      assert a + b == a;
    } else {
      assert (a + b)[..|a + b| - 1] == a + b[..|b| - 1];
      AnnouncedConcat(a, b[..|b| - 1]);
    }
  }

  predicate Alternates(shown: seq<Anim>) {
    forall i :: 0 <= i < |shown| ==> shown[i] == if i % 2 == 0 then Chase else Idle
  }

  /** The announcements say Chase, Idle, Chase, ... and end in Chase exactly while the player moves; at
      rest it has the speed it was created with, or none once it was announced. */
  predicate Told(p: Avatar, shown: seq<Anim>, speed: real) {
    && Steady(p) && Alternates(shown) && (p.mv.moving <==> |shown| % 2 == 1)
    && (!p.mv.moving ==> p.mv.speed == if shown == [] then speed else 0.0)
  }

  lemma OutcomeTold(p: Avatar, shown: seq<Anim>, o: Outcome, said: seq<Anim>, speed: real)
    requires Told(p, shown, speed) && Steady(o.p)
    requires said == if o.p.mv.moving == p.mv.moving then [] else [if o.p.mv.moving then Chase else Idle]
    requires !o.p.mv.moving ==> o.p.mv.speed == if p.mv.moving then 0.0 else p.mv.speed
    ensures Told(o.p, shown + said, speed)
  {
  }

  lemma AnnouncedOne(e: Effect)
    ensures Announced([e]) == Announces(e)
  {
    assert [e][..0] == [];
    assert Announced([]) + Announces(e) == Announces(e);
  }

  lemma {:induction false} AnnouncedFirst(fx: seq<Effect>)
    requires fx != [] && forall i :: 0 < i < |fx| ==> Announces(fx[i]) == []
    ensures Announced(fx) == Announces(fx[0])
    decreases |fx|
  {
    if |fx| == 1 {
      assert fx == [fx[0]];
      AnnouncedOne(fx[0]);
    } else {
      AnnouncedFirst(fx[..|fx| - 1]);
      assert Announced(fx) == Announced(fx[..|fx| - 1]) + [];
    }
  }

  lemma SteeredTold(p: Avatar, now: real, dir: Vec2, r: real, shown: seq<Anim>, speed: real)
    requires Told(p, shown, speed) && Enabled(Steer(dir, r))
    ensures var o := Steered(p, now, dir, r); Told(o.p, shown + Announced(o.fx), speed)
  {
    var o := Steered(p, now, dir, r);
    if Dot(dir, dir) >= DEAD_ZONE { UnitLength(dir, r); }
    if o.fx != [] { AnnouncedFirst(o.fx); }
    OutcomeTold(p, shown, o, Announced(o.fx), speed);
  }

  lemma TickedSays(p: Avatar, now: real, step: real, writer: bool)
    ensures var o := Ticked(p, now, step, writer);
      && o.p.mv == (if TimedOut(p, now) then Stopped(p.mv) else p.mv)
      && Announced(o.fx) == if TimedOut(p, now) then [Idle] else []
  {
    var o := Ticked(p, now, step, writer);
    if o.fx != [] { AnnouncedFirst(o.fx); }
  }

  lemma StopTold(p: Avatar, q: Avatar, shown: seq<Anim>, speed: real)
    requires Told(p, shown, speed)
    ensures q.mv == p.mv ==> Told(q, shown + [], speed)
    ensures p.mv.moving && q.mv == Stopped(p.mv) ==> Told(q, shown + [Idle], speed)
  {
    assert shown + [] == shown;
  }

  lemma TickedTold(p: Avatar, now: real, step: real, writer: bool, shown: seq<Anim>, speed: real)
    requires Told(p, shown, speed)
    ensures var o := Ticked(p, now, step, writer); Told(o.p, shown + Announced(o.fx), speed)
  {
    TickedSays(p, now, step, writer);
    StopTold(p, Ticked(p, now, step, writer).p, shown, speed);
  }

  lemma HurtTold(p: Avatar, now: real, damage: int, shown: seq<Anim>, speed: real)
    requires Told(p, shown, speed)
    ensures var o := Hurt(p, now, damage); Told(o.p, shown + Announced(o.fx), speed)
  {
    var o := Hurt(p, now, damage);
    if o.fx != [] { AnnouncedFirst(o.fx); }
    OutcomeTold(p, shown, o, Announced(o.fx), speed);
  }

  predicate TraceTold(s: Solo, speed: real) { Told(s.p, Announced(s.fx), speed) }

  lemma DoneTold(s: Solo, o: Outcome, speed: real)
    requires Told(o.p, Announced(s.fx) + Announced(o.fx), speed)
    ensures TraceTold(Done(s, o), speed)
  {
    AnnouncedConcat(s.fx, o.fx);
  }

  lemma QuietTold(s: Solo, pos: Vec2, e: Effect, speed: real)
    requires TraceTold(s, speed) && Announces(e) == []
    ensures TraceTold(s.(p := s.p.(pos := pos), fx := s.fx + [e]), speed)
  {
    AnnouncedConcat(s.fx, [e]);
    AnnouncedOne(e);
    assert Announced(s.fx) + [] == Announced(s.fx);
  }

  lemma {:induction false} CatchUpTold(s: Solo, step: real, writer: bool, budget: nat, speed: real)
    requires TraceTold(s, speed)
    ensures TraceTold(CatchUp(s, step, writer, budget), speed)
    decreases budget
  {
    if budget != 0 && s.clock.acc >= step {
      var o := Ticked(s.p, s.time, step, writer);
      TickedTold(s.p, s.time, step, writer, Announced(s.fx), speed);
      DoneTold(s, o, speed);
      CatchUpTold(TickOnce(s, step, writer), step, writer, budget - 1, speed);
    }
  }

  lemma ApplyTold(s: Solo, step: real, writer: bool, e: Event, speed: real)
    requires TraceTold(s, speed) && Enabled(e)
    ensures TraceTold(Apply(s, step, writer, e), speed)
  {
    match e
    case Enter(pos) => QuietTold(s, pos, Placed(pos), speed);
    case Steer(dir, r) =>
      SteeredTold(s.p, s.time, dir, r, Announced(s.fx), speed);
      DoneTold(s, Steered(s.p, s.time, dir, r), speed);
    case Skill => QuietTold(s, s.p.pos, Shown(Attack), speed);
    case Blow(damage) =>
      HurtTold(s.p, s.time, damage, Announced(s.fx), speed);
      DoneTold(s, Hurt(s.p, s.time, damage), speed);
    case Frame(dt) =>
      if dt > 0.0 {
        CatchUpTold(Started(s, dt), step, writer, MAX_PLAYER_TICKS, speed);
      }
  }

  /** In every run of a new player, however input, skills, blows, frames and re-entries mix. */
  lemma {:induction false} MovementTrace(s: Solo, step: real, writer: bool, es: seq<Event>)
    requires New(s.p) && s.fx == [] && AllEnabled(es)
    ensures TraceTold(Run(s, step, writer, es), s.p.mv.speed)
  {
    if es != [] {
      MovementTrace(s, step, writer, es[..|es| - 1]);
      ApplyTold(Run(s, step, writer, es[..|es| - 1]), step, writer, es[|es| - 1], s.p.mv.speed);
    }
  }

  /** That a player at rest has no speed is true exactly if it was created without one or has been
      announced. game/Player.h creates it with one. */
  lemma RestSpeedExactly(s: Solo, step: real, writer: bool, es: seq<Event>)
    requires New(s.p) && s.fx == [] && AllEnabled(es)
    ensures var s' := Run(s, step, writer, es);
      !s'.p.mv.moving ==> (s'.p.mv.speed == 0.0 <==> s.p.mv.speed == 0.0 || Announced(s'.fx) != [])
  {
    MovementTrace(s, step, writer, es);
  }

  // ---------------------------------------------------------------- the clock of a run

  function FrameTimes(es: seq<Event>): seq<real> {
    if es == [] then []
    else FrameTimes(es[..|es| - 1]) + (if es[|es| - 1].Frame? then [es[|es| - 1].dt] else [])
  }

  lemma {:induction false} CatchUpClock(s: Solo, step: real, writer: bool, budget: nat)
    ensures var n, s' := Ticks(s.clock.acc, step, budget), CatchUp(s, step, writer, budget);
      s'.time == s.time && s'.clock == Clock(s.clock.acc - Span(step, n), s.clock.ticks + n)
    decreases budget
  {
    if budget != 0 && s.clock.acc >= step {
      CatchUpClock(TickOnce(s, step, writer), step, writer, budget - 1);
    }
  }

  lemma ApplyClock(s: Solo, step: real, writer: bool, e: Event)
    requires Enabled(e)
    ensures var s' := Apply(s, step, writer, e);
      && s'.clock == (if e.Frame? then Framed(s.clock, step, MAX_PLAYER_TICKS, e.dt) else s.clock)
      && s'.time == s.time + (if e.Frame? && e.dt > 0.0 then e.dt else 0.0)
  {
    if e.Frame? && e.dt > 0.0 { CatchUpClock(Started(s, e.dt), step, writer, MAX_PLAYER_TICKS); }
  }

  lemma FrameTimesOn(es: seq<Event>)
    requires es != []
    ensures var dts, before := FrameTimes(es), FrameTimes(es[..|es| - 1]);
      if es[|es| - 1].Frame? then dts != [] && dts[..|dts| - 1] == before && dts[|dts| - 1] == es[|es| - 1].dt
      else dts == before
  {
  }

  /** The field's clock goes on by itself, whatever the player does. */
  lemma {:induction false} RunClock(s: Solo, step: real, writer: bool, es: seq<Event>)
    requires AllEnabled(es)
    ensures var s' := Run(s, step, writer, es);
      && s'.clock == Frames(s.clock, step, MAX_PLAYER_TICKS, FrameTimes(es))
      && s'.time == s.time + Elapsed(FrameTimes(es))
  {
    if es != [] {
      RunClock(s, step, writer, es[..|es| - 1]);
      FrameTimesOn(es);
      ApplyClock(Run(s, step, writer, es[..|es| - 1]), step, writer, es[|es| - 1]);
    }
  }

  lemma RunKept(s: Solo, step: real, writer: bool, es: seq<Event>, s': Solo)
    requires step > 0.0 && s.clock.acc >= 0.0 && AllEnabled(es) && s' == Run(s, step, writer, es)
    ensures s'.time >= s.time && Kept(s.clock, step, s'.clock, s'.time - s.time)
  {
    RunClock(s, step, writer, es);
    TimeIsKept(s.clock, step, MAX_PLAYER_TICKS, FrameTimes(es));
  }

  // ---------------------------------------------------------------- displacement

  /** How far n ticks can carry a player. */
  function Reach(step: real, n: nat): real { MOVE_SPEED * Span(step, n) }

  ghost predicate Reached(s: Solo, step: real, s': Solo) {
    && Steady(s'.p) && s'.clock.ticks >= s.clock.ticks
    && Within(s.p.pos, s'.p.pos, Reach(step, s'.clock.ticks - s.clock.ticks))
  }

  lemma ReachedOn(s: Solo, step: real, b: Solo, s': Solo)
    requires Reached(s, step, b) && Reached(b, step, s')
    ensures Reached(s, step, s')
  {
    var m, n := b.clock.ticks - s.clock.ticks, s'.clock.ticks - b.clock.ticks;
    SpanSum(step, m, n);
    Triangle(s.p.pos, b.p.pos, s'.p.pos, Reach(step, m), Reach(step, n));
  }

  lemma Stands(s: Solo, step: real, s': Solo)
    requires Steady(s'.p) && s'.p.pos == s.p.pos && s'.clock.ticks == s.clock.ticks
    ensures Reached(s, step, s')
  {
    Staying(s.p.pos, 0.0);
    assert Reach(step, 0) == 0.0;
  }

  lemma ReachOne(step: real)
    ensures Reach(step, 1) == Stride(MOVE_SPEED, step)
  {
    assert Span(step, 1) == Span(step, 0) + step;
  }

  lemma StepReaches(s: Solo, step: real, s': Solo)
    requires step > 0.0 && Steady(s'.p) && s'.clock.ticks == s.clock.ticks + 1
    requires Dot(s.p.mv.dir, s.p.mv.dir) == 1.0
    requires s'.p.pos == Plus(s.p.pos, Scale(s.p.mv.dir, Stride(MOVE_SPEED, step)))
    ensures Reached(s, step, s')
  {
    ReachOne(step);
    SteppedWithin(s.p.pos, s.p.mv.dir, Reach(step, 1));
    assert s'.clock.ticks - s.clock.ticks == 1;
  }

  lemma RestReaches(s: Solo, step: real, s': Solo)
    requires step > 0.0 && Steady(s'.p) && s'.clock.ticks == s.clock.ticks + 1
    requires s'.p.pos == s.p.pos
    ensures Reached(s, step, s')
  {
    ReachOne(step);
    Staying(s.p.pos, Reach(step, 1));
    assert s'.clock.ticks - s.clock.ticks == 1;
  }

  lemma TickReaches(s: Solo, step: real, writer: bool, t: Solo)
    requires step > 0.0 && Steady(s.p) && t == TickOnce(s, step, writer)
    ensures Reached(s, step, t)
  {
    if !TimedOut(s.p, s.time) && s.p.mv.moving {
      assert t.p.pos == Ahead(s.p, step) && t.p.mv == s.p.mv;
      StepReaches(s, step, t);
    } else {
      RestReaches(s, step, t);
    }
  }

  /** The states that the catch-up loop goes through. */
  function Visited(s: Solo, step: real, writer: bool, budget: nat): (r: seq<Solo>)
    ensures r != [] && r[0] == s && r[|r| - 1] == CatchUp(s, step, writer, budget)
    ensures forall i :: 0 < i < |r| ==> r[i] == TickOnce(r[i - 1], step, writer)
    decreases budget
  {
    if budget == 0 || s.clock.acc < step then [s]
    else [s] + Visited(TickOnce(s, step, writer), step, writer, budget - 1)
  }

  lemma {:induction false} ReachedAlong(states: seq<Solo>, step: real)
    requires states != [] && Steady(states[0].p)
    requires forall i :: 0 < i < |states| && Steady(states[i - 1].p) ==> Reached(states[i - 1], step, states[i])
    ensures Reached(states[0], step, states[|states| - 1])
    decreases |states|
  {
    if |states| == 1 {
      Stands(states[0], step, states[0]);
    } else {
      ReachedAlong(states[..|states| - 1], step);
      ReachedOn(states[0], step, states[|states| - 2], states[|states| - 1]);
    }
  }

  lemma CatchUpReaches(s: Solo, step: real, writer: bool, budget: nat, s': Solo)
    requires step > 0.0 && Steady(s.p) && s' == CatchUp(s, step, writer, budget)
    ensures Reached(s, step, s')
  {
    var states := Visited(s, step, writer, budget);
    forall i | 0 < i < |states| && Steady(states[i - 1].p) ensures Reached(states[i - 1], step, states[i]) {
      TickReaches(states[i - 1], step, writer, states[i]);
    }
    ReachedAlong(states, step);
  }

  lemma SteerSteady(p: Avatar, now: real, dir: Vec2, r: real)
    requires Steady(p) && Enabled(Steer(dir, r))
    ensures Steady(Steered(p, now, dir, r).p) && Steered(p, now, dir, r).p.pos == p.pos
  {
    if Dot(dir, dir) >= DEAD_ZONE { UnitLength(dir, r); }
  }

  lemma Restarted(s: Solo, dt: real, step: real, s': Solo)
    requires Reached(Started(s, dt), step, s')
    ensures Reached(s, step, s')
  {
  }

  lemma ApplyReaches(s: Solo, step: real, writer: bool, e: Event, s': Solo)
    requires step > 0.0 && Steady(s.p) && Enabled(e) && !e.Enter?
    requires s' == Apply(s, step, writer, e)
    ensures Reached(s, step, s')
  {
    if e.Frame? && e.dt > 0.0 {
      CatchUpReaches(Started(s, e.dt), step, writer, MAX_PLAYER_TICKS, s');
      Restarted(s, e.dt, step, s');
    } else {
      if e.Steer? { SteerSteady(s.p, s.time, e.dir, e.r); }
      Stands(s, step, s');
    }
  }

  lemma {:induction false} RunReaches(s: Solo, step: real, writer: bool, es: seq<Event>, s': Solo)
    requires step > 0.0 && Steady(s.p) && AllEnabled(es)
    requires forall i :: 0 <= i < |es| ==> !es[i].Enter?
    requires s' == Run(s, step, writer, es)
    ensures Reached(s, step, s')
    decreases |es|
  {
    if es == [] {
      Stands(s, step, s');
    } else {
      var b := Run(s, step, writer, es[..|es| - 1]);
      RunReaches(s, step, writer, es[..|es| - 1], b);
      ApplyReaches(b, step, writer, es[|es| - 1], s');
      ReachedOn(s, step, b, s');
    }
  }

  /** The distance that may be covered in the given time. */
  function SpeedLimit(t: real): real { MOVE_SPEED * t }

  /** From s to s', a player is no further away than the ticks run allow, hence than the time passed
      and the time in store allow. */
  ghost predicate KeepsLimit(s: Solo, step: real, s': Solo) {
    && s'.clock.ticks >= s.clock.ticks
    && Within(s.p.pos, s'.p.pos, Reach(step, s'.clock.ticks - s.clock.ticks))
    && Within(s.p.pos, s'.p.pos, SpeedLimit(s'.time - s.time + s.clock.acc))
  }

  lemma LimitFollows(s: Solo, step: real, s': Solo)
    requires Reached(s, step, s') && Kept(s.clock, step, s'.clock, s'.time - s.time)
    ensures KeepsLimit(s, step, s')
  {
    WithinMore(s.p.pos, s'.p.pos, Reach(step, s'.clock.ticks - s.clock.ticks), SpeedLimit(s'.time - s.time + s.clock.acc));
  }

  /** The server's speed bound, whatever the input, for a player that is not placed anew. */
  lemma SpeedBound(s: Solo, step: real, writer: bool, es: seq<Event>, s': Solo)
    requires step > 0.0 && s.clock.acc >= 0.0 && Steady(s.p) && AllEnabled(es)
    requires forall i :: 0 <= i < |es| ==> !es[i].Enter?
    requires s' == Run(s, step, writer, es)
    ensures KeepsLimit(s, step, s')
  {
    RunReaches(s, step, writer, es, s');
    RunKept(s, step, writer, es, s');
    LimitFollows(s, step, s');
  }

  // ---------------------------------------------------------------- stopping distance

  /** The time by which input must come. */
  function Deadline(s: Solo): real { s.p.mv.lastInput + INPUT_TIMEOUT }

  /** The ticks run in frames that end no later than the deadline. */
  function OnTime(s: Solo, step: real, writer: bool, es: seq<Event>): int
    requires AllEnabled(es)
  {
    if es == [] then 0
    else
      var (b, s') := (Run(s, step, writer, es[..|es| - 1]), Run(s, step, writer, es));
      OnTime(s, step, writer, es[..|es| - 1]) + (if s'.time <= Deadline(s) then s'.clock.ticks - b.clock.ticks else 0)
  }

  /** A player that moved at s has coasted n ticks on. */
  ghost predicate Coasted(s: Solo, step: real, n: int, s': Solo) {
    && 0 <= n <= s'.clock.ticks - s.clock.ticks
    && s'.p.pos == Plus(s.p.pos, Scale(s.p.mv.dir, Reach(step, n)))
    && (s'.p.mv.moving <==> s'.clock.ticks - s.clock.ticks == n)
    && (s'.p.mv.moving ==> s'.p.mv == s.p.mv)
    && (s'.time <= Deadline(s) ==> s'.p.mv.moving)
    && Span(step, n) <= s.clock.acc + (Deadline(s) - s.time)
  }

  lemma {:induction false} CatchUpCoasts(s: Solo, step: real, writer: bool, budget: nat)
    requires s.p.mv.moving && Steady(s.p) && !TimedOut(s.p, s.time)
    ensures var s' := CatchUp(s, step, writer, budget);
      && s'.clock.ticks >= s.clock.ticks && s'.p.mv == s.p.mv
      && s'.p.pos == Plus(s.p.pos, Scale(s.p.mv.dir, Reach(step, s'.clock.ticks - s.clock.ticks)))
    decreases budget
  {
    if budget != 0 && s.clock.acc >= step {
      var t := TickOnce(s, step, writer);
      CatchUpCoasts(t, step, writer, budget - 1);
      Onward(s.p.pos, s.p.mv.dir, step, 1, CatchUp(t, step, writer, budget - 1).clock.ticks - t.clock.ticks);
    }
  }

  lemma Onward(from: Vec2, dir: Vec2, step: real, m: nat, n: nat)
    ensures Plus(Plus(from, Scale(dir, Reach(step, m))), Scale(dir, Reach(step, n)))
         == Plus(from, Scale(dir, Reach(step, m + n)))
    ensures Reach(step, 1) == Stride(MOVE_SPEED, step)
  {
    SpanSum(step, m, n);
    ReachOne(step);
    Distribute(dir.x, Reach(step, m), Reach(step, n));
    Distribute(dir.y, Reach(step, m), Reach(step, n));
  }

  lemma Distribute(a: real, b: real, c: real)
    ensures a * b + a * c == a * (b + c)
  {
  }

  lemma {:induction false} CatchUpRests(s: Solo, step: real, writer: bool, budget: nat)
    requires s.p.mv.moving ==> TimedOut(s.p, s.time)
    ensures var s' := CatchUp(s, step, writer, budget);
      && s'.clock.ticks >= s.clock.ticks && s'.p.pos == s.p.pos
      && (s'.clock.ticks == s.clock.ticks ==> s'.p == s.p)
      && (s'.p.mv.moving ==> s'.clock.ticks == s.clock.ticks)
    decreases budget
  {
    if budget != 0 && s.clock.acc >= step {
      var t := TickOnce(s, step, writer);
      CatchUpRests(t, step, writer, budget - 1);
    }
  }

  lemma CoastsFromHere(s: Solo, step: real)
    requires s.p.mv.moving && s.clock.acc >= 0.0 && s.time <= Deadline(s)
    ensures Coasted(s, step, 0, s)
  {
    assert Scale(s.p.mv.dir, Reach(step, 0)) == ZERO;
  }

  lemma CoastsOn(s: Solo, step: real, b: Solo, n: nat, s': Solo)
    requires s.p.mv.moving && Steady(s.p) && Coasted(s, step, n, b) && b.p.mv.moving
    requires s'.clock.ticks >= b.clock.ticks && s'.p.mv == b.p.mv
    requires s'.p.pos == Plus(b.p.pos, Scale(b.p.mv.dir, Reach(step, s'.clock.ticks - b.clock.ticks)))
    requires Kept(s.clock, step, s'.clock, s'.time - s.time) && s'.time <= Deadline(s)
    ensures Coasted(s, step, n + (s'.clock.ticks - b.clock.ticks), s')
  {
    Onward(s.p.pos, s.p.mv.dir, step, n, s'.clock.ticks - b.clock.ticks);
  }

  /** Input apart, what moves a player on is frames, and of these the ones within the deadline. */
  lemma ApplyCoasts(s: Solo, step: real, writer: bool, b: Solo, m: int, e: Event, n: int, s': Solo)
    requires s.p.mv.moving && Steady(s.p) && Coasted(s, step, m, b)
    requires Enabled(e) && !e.Enter? && !e.Steer? && s' == Apply(b, step, writer, e)
    requires Kept(s.clock, step, s'.clock, s'.time - s.time)
    requires n == m + (if s'.time <= Deadline(s) then s'.clock.ticks - b.clock.ticks else 0)
    ensures Coasted(s, step, n, s')
  {
    if e.Frame? && e.dt > 0.0 {
      var t := Started(b, e.dt);
      CatchUpClock(t, step, writer, MAX_PLAYER_TICKS);
      if s'.time <= Deadline(s) {
        CatchUpCoasts(t, step, writer, MAX_PLAYER_TICKS);
        CoastsOn(s, step, b, m, s');
      } else {
        CatchUpRests(t, step, writer, MAX_PLAYER_TICKS);
      }
    }
  }

  lemma {:induction false} RunCoasts(s: Solo, step: real, writer: bool, es: seq<Event>, n: int, s': Solo)
    requires step > 0.0 && s.clock.acc >= 0.0 && AllEnabled(es)
    requires s.p.mv.moving && Steady(s.p) && s.time <= Deadline(s)
    requires forall i :: 0 <= i < |es| ==> !es[i].Enter? && !es[i].Steer?
    requires s' == Run(s, step, writer, es) && n == OnTime(s, step, writer, es)
    ensures Coasted(s, step, n, s')
    decreases |es|
  {
    if es == [] {
      CoastsFromHere(s, step);
    } else {
      var b, m := Run(s, step, writer, es[..|es| - 1]), OnTime(s, step, writer, es[..|es| - 1]);
      RunCoasts(s, step, writer, es[..|es| - 1], m, b);
      RunKept(s, step, writer, es, s');
      ApplyCoasts(s, step, writer, b, m, es[|es| - 1], n, s');
    }
  }

  /** The stopping distance. Without further input a moving player goes straight on for exactly the
      ticks of the frames that end within 0.5 of the last input; it stops at the first tick of any
      later frame. These ticks last no longer than 0.5 and the time that was in store. */
  lemma StoppingDistance(s: Solo, step: real, writer: bool, es: seq<Event>, s': Solo)
    requires step > 0.0 && s.clock.acc >= 0.0 && AllEnabled(es)
    requires s.p.mv.moving && Steady(s.p) && s.time == s.p.mv.lastInput
    requires forall i :: 0 <= i < |es| ==> !es[i].Enter? && !es[i].Steer?
    requires s' == Run(s, step, writer, es)
    ensures var n, ticks := OnTime(s, step, writer, es), s'.clock.ticks - s.clock.ticks;
      && 0 <= n <= ticks
      && s'.p.pos == Plus(s.p.pos, Scale(s.p.mv.dir, Reach(step, n)))
      && (s'.p.mv.moving <==> ticks == n)
      && Reach(step, n) <= SpeedLimit(INPUT_TIMEOUT + s.clock.acc)
  {
    RunCoasts(s, step, writer, es, OnTime(s, step, writer, es), s');
  }

  // ---------------------------------------------------------------- where input takes a player

  /** The ticks that a run has in frames ending no later than this time. */
  function TicksBy(s: Solo, step: real, writer: bool, es: seq<Event>, end: real): int
    requires AllEnabled(es)
  {
    if es == [] then 0
    else
      var (b, s') := (Run(s, step, writer, es[..|es| - 1]), Run(s, step, writer, es));
      TicksBy(s, step, writer, es[..|es| - 1], end) + (if s'.time <= end then s'.clock.ticks - b.clock.ticks else 0)
  }

  lemma {:induction false} TicksByIsOnTime(s: Solo, step: real, writer: bool, es: seq<Event>)
    requires AllEnabled(es)
    ensures TicksBy(s, step, writer, es, Deadline(s)) == OnTime(s, step, writer, es)
    decreases |es|
  {
    if es != [] { TicksByIsOnTime(s, step, writer, es[..|es| - 1]); }
  }

  lemma Quotient(a: real, b: real, r: real)
    requires r > 0.0
    ensures a * (1.0 / r) * b == a * b / r
  {
    var q := 1.0 / r;
    assert q * r == 1.0;
    Swap3(a, q, b);
    DividedBy(a * b, q, r);
  }

  lemma Swap3(a: real, b: real, c: real)
    ensures a * b * c == a * c * b
  {
  }

  lemma DividedBy(a: real, q: real, r: real)
    requires r > 0.0 && q * r == 1.0
    ensures a * q == a / r
  {
    var d := a / r;
    assert d * r == a;
    assert d * r * q == d * (q * r);
  }

  lemma SteerTurns(s: Solo, step: real, writer: bool, dir: Vec2, r: real)
    requires Dot(dir, dir) >= 0.0001 && r > 0.0 && r * r == Dot(dir, dir)
    ensures var t := Apply(s, step, writer, Steer(dir, r));
      && t.p.mv == MoveState(Scale(dir, 1.0 / r), true, 4.5, s.time) && Steady(t.p)
      && t.p.pos == s.p.pos && t.time == s.time && t.clock == s.clock
  {
    UnitLength(dir, r);
  }

  lemma GoesOn(t: Solo, step: real, writer: bool, es: seq<Event>, s': Solo, n: nat, end: real)
    requires step > 0.0 && t.clock.acc >= 0.0 && AllEnabled(es)
    requires t.p.mv.moving && Steady(t.p) && t.p.mv.lastInput == t.time && end == t.time + 0.5
    requires forall i :: 0 <= i < |es| ==> !es[i].Enter? && !es[i].Steer?
    requires s' == Run(t, step, writer, es) && n == TicksBy(t, step, writer, es, end)
    ensures s'.p.pos == Plus(t.p.pos, Scale(t.p.mv.dir, Reach(step, n)))
  {
    TicksByIsOnTime(t, step, writer, es);
    StoppingDistance(t, step, writer, es, s');
  }

  lemma AlongInput(from: Vec2, dir: Vec2, r: real, reach: real, to: Vec2)
    requires r > 0.0 && to == Plus(from, Scale(Scale(dir, 1.0 / r), reach))
    ensures to == Vec2(from.x + dir.x * reach / r, from.y + dir.y * reach / r)
  {
    Quotient(dir.x, reach, r);
    Quotient(dir.y, reach, r);
  }

  lemma GoesFrom(t: Solo, step: real, writer: bool, dir: Vec2, r: real, es: seq<Event>, s': Solo, n: nat, reach: real)
    requires step > 0.0 && t.clock.acc >= 0.0 && AllEnabled(es) && r > 0.0
    requires t.p.mv.moving && Steady(t.p) && t.p.mv.lastInput == t.time && t.p.mv.dir == Scale(dir, 1.0 / r)
    requires forall i :: 0 <= i < |es| ==> !es[i].Enter? && !es[i].Steer?
    requires s' == Run(t, step, writer, es) && n == TicksBy(t, step, writer, es, t.time + 0.5) && reach == Reach(step, n)
    ensures s'.p.pos == Vec2(t.p.pos.x + dir.x * reach / r, t.p.pos.y + dir.y * reach / r)
  {
    GoesOn(t, step, writer, es, s', n, t.time + 0.5);
    AlongInput(t.p.pos, dir, r, reach, s'.p.pos);
  }

  lemma ReachIs(step: real, n: nat)
    ensures Reach(step, n) == 4.5 * Span(step, n)
  {
  }

  /** Input of a direction takes a player that way: after it, and without further input, the player stands
      at `reach`, 4.5 times the ticks run within 0.5, along the very vector that was sent, shortened to
      length 1. */
  lemma GoesWhereTold(s: Solo, step: real, writer: bool, dir: Vec2, r: real, es: seq<Event>, t: Solo, s': Solo, n: nat, reach: real)
    requires step > 0.0 && s.clock.acc >= 0.0 && AllEnabled(es)
    requires Dot(dir, dir) >= 0.0001 && r > 0.0 && r * r == Dot(dir, dir)
    requires forall i :: 0 <= i < |es| ==> !es[i].Enter? && !es[i].Steer?
    requires t == Apply(s, step, writer, Steer(dir, r)) && s' == Run(t, step, writer, es)
    requires n == TicksBy(t, step, writer, es, s.time + 0.5) && reach == 4.5 * Span(step, n)
    ensures s'.p.pos == Vec2(s.p.pos.x + dir.x * reach / r, s.p.pos.y + dir.y * reach / r)
  {
    SteerTurns(s, step, writer, dir, r);
    ReachIs(step, n);
    GoesFrom(t, step, writer, dir, r, es, s', n, reach);
  }

  /** Input of no direction, less than 0.01 long, keeps it where it is. */
  lemma {:induction false} StaysWhenTold(s: Solo, step: real, writer: bool, dir: Vec2, r: real, es: seq<Event>)
    requires Dot(dir, dir) < 0.0001 && AllEnabled(es)
    requires forall i :: 0 <= i < |es| ==> !es[i].Enter? && !es[i].Steer?
    ensures var s' := Run(Apply(s, step, writer, Steer(dir, r)), step, writer, es);
      s'.p.pos == s.p.pos && !s'.p.mv.moving
    decreases |es|
  {
    var t := Apply(s, step, writer, Steer(dir, r));
    if es != [] {
      var before, e := es[..|es| - 1], es[|es| - 1];
      StaysWhenTold(s, step, writer, dir, r, before);
      var b := Run(t, step, writer, before);
      if e.Frame? && e.dt > 0.0 { CatchUpRests(Started(b, e.dt), step, writer, MAX_PLAYER_TICKS); }
      if e.Frame? && e.dt > 0.0 { RestIsSilent(Started(b, e.dt), step, writer, MAX_PLAYER_TICKS); }
    }
  }

  // ---------------------------------------------------------------- hit points

  function TotalDamage(es: seq<Event>): int {
    if es == [] then 0 else TotalDamage(es[..|es| - 1]) + (if es[|es| - 1].Blow? then es[|es| - 1].damage else 0)
  }

  lemma {:induction false} CatchUpHp(s: Solo, step: real, writer: bool, budget: nat)
    ensures var s' := CatchUp(s, step, writer, budget); s'.p.hp == s.p.hp && s'.p.maxHp == s.p.maxHp
    decreases budget
  {
    if budget != 0 && s.clock.acc >= step { CatchUpHp(TickOnce(s, step, writer), step, writer, budget - 1); }
  }

  /** Over every run a player has the hit points that the blows left it: as many less as their damage, down
      to 0. */
  lemma {:induction false} BlowsLeave(s: Solo, step: real, writer: bool, es: seq<Event>)
    requires 0 <= s.p.hp <= s.p.maxHp && AllEnabled(es)
    requires forall i :: 0 <= i < |es| && es[i].Blow? ==> es[i].damage >= 0
    ensures var s' := Run(s, step, writer, es);
      && s'.p.hp == (if TotalDamage(es) <= s.p.hp then s.p.hp - TotalDamage(es) else 0)
      && s'.p.maxHp == s.p.maxHp && TotalDamage(es) >= 0
    decreases |es|
  {
    if es != [] {
      var before, e := es[..|es| - 1], es[|es| - 1];
      BlowsLeave(s, step, writer, before);
      var b := Run(s, step, writer, before);
      if e.Frame? && e.dt > 0.0 { CatchUpHp(Started(b, e.dt), step, writer, MAX_PLAYER_TICKS); }
    }
  }

  /** A blow that leaves nothing is announced as death, and every blow that takes something marks the player. */
  lemma BlowIsTold(s: Solo, step: real, writer: bool, damage: int)
    requires 0 < s.p.hp <= s.p.maxHp && damage >= 0
    ensures var s' := Apply(s, step, writer, Blow(damage));
      s'.fx == s.fx + (if damage == 0 then [] else if damage < s.p.hp then [Marked] else [Marked, Shown(Dead)])
  {
    assert s.fx + [] == s.fx && [Marked] + [] == [Marked] && [Marked] + [Shown(Dead)] == [Marked, Shown(Dead)];
  }

  // ---------------------------------------------------------------- what is saved

  /** Where a player stands after these calls. */
  function PosAfter(from: Vec2, fx: seq<Effect>): Vec2 {
    if fx == [] then from
    else
      var last := fx[|fx| - 1];
      if last.Placed? || last.Moved? then last.pos else PosAfter(from, fx[..|fx| - 1])
  }

  ghost predicate FaithfulAt(from: Vec2, fx: seq<Effect>, i: nat)
    requires i < |fx|
  {
    fx[i].Enqueued? ==> fx[i].pos == PosAfter(from, fx[..i]) && i + 1 < |fx| && fx[i + 1].Marked?
  }

  /** Every snapshot holds the position of its time, and the mark for it comes right after it. */
  ghost predicate Faithful(from: Vec2, fx: seq<Effect>, to: Vec2) {
    PosAfter(from, fx) == to && forall i :: 0 <= i < |fx| ==> FaithfulAt(from, fx, i)
  }

  lemma {:induction false} PosAfterConcat(from: Vec2, a: seq<Effect>, b: seq<Effect>)
    ensures PosAfter(from, a + b) == PosAfter(PosAfter(from, a), b)
    decreases |b|
  {
    if b == [] {
      assert a + b == a;
    } else {
      assert (a + b)[..|a + b| - 1] == a + b[..|b| - 1];
      PosAfterConcat(from, a, b[..|b| - 1]);
    }
  }

  lemma FaithfulConcat(from: Vec2, a: seq<Effect>, mid: Vec2, b: seq<Effect>, to: Vec2)
    requires Faithful(from, a, mid) && Faithful(mid, b, to)
    ensures Faithful(from, a + b, to)
  {
    PosAfterConcat(from, a, b);
    forall i | 0 <= i < |a + b| ensures FaithfulAt(from, a + b, i) {
      if i < |a| {
        assert FaithfulAt(from, a, i) && (a + b)[..i] == a[..i];
      } else {
        assert FaithfulAt(mid, b, i - |a|) && (a + b)[..i] == a + b[..i - |a|];
        PosAfterConcat(from, a, b[..i - |a|]);
      }
    }
  }

  lemma FaithfulOne(from: Vec2, e: Effect)
    requires !e.Enqueued?
    ensures Faithful(from, [e], if e.Placed? || e.Moved? then e.pos else from)
  {
    assert [e][..0] == [];
  }

  lemma FaithfulSaving(p: Avatar, writer: bool)
    ensures Faithful(p.pos, Saving(p, writer), p.pos)
  {
    var fx := Saving(p, writer);
    assert fx[..0] == [];
    if writer {
      assert [fx[0]][..0] == [];
      assert fx[..|fx| - 1] == [fx[0]] && PosAfter(p.pos, [fx[0]]) == p.pos;
    } else {
      assert fx == [Marked];
    }
  }

  lemma TickedFaithful(p: Avatar, now: real, step: real, writer: bool)
    ensures var o := Ticked(p, now, step, writer); Faithful(p.pos, o.fx, o.p.pos)
  {
    var o := Ticked(p, now, step, writer);
    if TimedOut(p, now) {
      FaithfulOne(p.pos, Shown(Idle));
      FaithfulSaving(p, writer);
      FaithfulConcat(p.pos, [Shown(Idle)], p.pos, Saving(p, writer), p.pos);
    } else if p.mv.moving {
      FaithfulOne(p.pos, Moved(o.p.pos));
      FaithfulSaving(o.p, writer);
      FaithfulConcat(p.pos, [Moved(o.p.pos)], o.p.pos, Saving(o.p, writer), o.p.pos);
    }
  }

  lemma HurtFaithful(p: Avatar, now: real, damage: int)
    ensures var o := Hurt(p, now, damage); Faithful(p.pos, o.fx, o.p.pos)
  {
    FaithfulOne(p.pos, Marked);
    FaithfulOne(p.pos, Shown(Dead));
    FaithfulConcat(p.pos, [Marked], p.pos, [Shown(Dead)], p.pos);
    assert [Marked] + [] == [Marked];
  }

  lemma {:induction false} CatchUpFaithful(from: Vec2, s: Solo, step: real, writer: bool, budget: nat)
    requires Faithful(from, s.fx, s.p.pos)
    ensures var s' := CatchUp(s, step, writer, budget); Faithful(from, s'.fx, s'.p.pos)
    decreases budget
  {
    if budget != 0 && s.clock.acc >= step {
      var o := Ticked(s.p, s.time, step, writer);
      TickedFaithful(s.p, s.time, step, writer);
      FaithfulConcat(from, s.fx, s.p.pos, o.fx, o.p.pos);
      CatchUpFaithful(from, TickOnce(s, step, writer), step, writer, budget - 1);
    }
  }

  lemma ApplyFaithful(from: Vec2, s: Solo, step: real, writer: bool, e: Event)
    requires Enabled(e) && Faithful(from, s.fx, s.p.pos)
    ensures var s' := Apply(s, step, writer, e); Faithful(from, s'.fx, s'.p.pos)
  {
    match e
    case Enter(pos) =>
      FaithfulOne(s.p.pos, Placed(pos));
      FaithfulConcat(from, s.fx, s.p.pos, [Placed(pos)], pos);
    case Steer(dir, r) =>
      var fx := Steered(s.p, s.time, dir, r).fx;
      if fx != [] {
        FaithfulOne(s.p.pos, fx[0]);
        FaithfulConcat(from, s.fx, s.p.pos, fx, s.p.pos);
      } else {
        assert s.fx + fx == s.fx;
      }
    case Skill =>
      FaithfulOne(s.p.pos, Shown(Attack));
      FaithfulConcat(from, s.fx, s.p.pos, [Shown(Attack)], s.p.pos);
    case Blow(damage) =>
      var o := Hurt(s.p, s.time, damage);
      HurtFaithful(s.p, s.time, damage);
      FaithfulConcat(from, s.fx, s.p.pos, o.fx, o.p.pos);
    case Frame(dt) => if dt > 0.0 { CatchUpFaithful(from, Started(s, dt), step, writer, MAX_PLAYER_TICKS); }
  }

  /** In every run: each snapshot holds the position that the player had when it was taken, and is
      followed at once by its mark, as the write-behind pipeline needs it. */
  lemma {:induction false} SnapshotsFaithful(s: Solo, step: real, writer: bool, es: seq<Event>)
    requires s.fx == [] && AllEnabled(es)
    ensures var s' := Run(s, step, writer, es); Faithful(s.p.pos, s'.fx, s'.p.pos)
  {
    if es != [] {
      SnapshotsFaithful(s, step, writer, es[..|es| - 1]);
      ApplyFaithful(s.p.pos, Run(s, step, writer, es[..|es| - 1]), step, writer, es[|es| - 1]);
    }
  }

  /** A player whose input times out is saved where it stops ... */
  lemma TimeoutSaves(s: Solo, step: real, writer: bool, budget: nat)
    requires TimedOut(s.p, s.time) && budget > 0 && s.clock.acc >= step
    ensures var s' := CatchUp(s, step, writer, budget);
      s'.p.pos == s.p.pos && !s'.p.mv.moving && s'.fx == s.fx + ([Shown(Idle)] + Saving(s'.p, writer))
  {
    RestIsSilent(TickOnce(s, step, writer), step, writer, budget - 1);
  }

  /** ... but a player at rest makes no call at all, so where it is saved was settled before it stopped. */
  lemma {:induction false} RestIsSilent(s: Solo, step: real, writer: bool, budget: nat)
    requires !s.p.mv.moving
    ensures var s' := CatchUp(s, step, writer, budget); s'.p == s.p && s'.fx == s.fx
    decreases budget
  {
    if budget != 0 && s.clock.acc >= step {
      assert s.fx + [] == s.fx;
      RestIsSilent(TickOnce(s, step, writer), step, writer, budget - 1);
    }
  }

  /** The position in the last snapshot. */
  function LastSaved(fx: seq<Effect>): Option<Vec2> {
    if fx == [] then None
    else if fx[|fx| - 1].Enqueued? then Some(fx[|fx| - 1].pos) else LastSaved(fx[..|fx| - 1])
  }

  /** The player was saved since it last changed its place. */
  predicate SavedHere(fx: seq<Effect>) {
    fx != [] &&
    (fx[|fx| - 1].Enqueued? || (!fx[|fx| - 1].Moved? && !fx[|fx| - 1].Placed? && SavedHere(fx[..|fx| - 1])))
  }

  lemma {:induction false} SavedBefore(from: Vec2, fx: seq<Effect>, to: Vec2)
    requires PosAfter(from, fx) == to && SavedHere(fx)
    requires forall i :: 0 <= i < |fx| && fx[i].Enqueued? ==> fx[i].pos == PosAfter(from, fx[..i])
    ensures LastSaved(fx) == Some(to)
    decreases |fx|
  {
    var n := |fx| - 1;
    var before := fx[..n];
    if fx[n].Enqueued? {
      assert fx[n].pos == PosAfter(from, before);
    } else {
      forall i | 0 <= i < n && before[i].Enqueued? ensures before[i].pos == PosAfter(from, before[..i]) {
        assert before[..i] == fx[..i] && before[i] == fx[i];
      }
      SavedBefore(from, before, to);
    }
  }

  lemma SavedWhere(from: Vec2, fx: seq<Effect>, to: Vec2)
    requires Faithful(from, fx, to) && SavedHere(fx)
    ensures LastSaved(fx) == Some(to)
  {
    forall i | 0 <= i < |fx| && fx[i].Enqueued? ensures fx[i].pos == PosAfter(from, fx[..i]) {
      assert FaithfulAt(from, fx, i);
    }
    SavedBefore(from, fx, to);
  }

  // ---------------------------------------------------------------- when the last move was saved

  /** Whether the place after a tick is saved: by the timeout, or if 0.25 has passed since the last mark. */
  predicate TickDue(s: Solo, due: bool) {
    if TimedOut(s.p, s.time) then true
    else if s.p.mv.moving then s.time - s.p.lastMark >= DIRTY_INTERVAL
    else due
  }

  predicate CatchUpDue(s: Solo, step: real, budget: nat, due: bool)
    decreases budget
  {
    if budget == 0 || s.clock.acc < step then due
    else CatchUpDue(TickOnce(s, step, true), step, budget - 1, TickDue(s, due))
  }

  /** At the last tick that found the player moving, it timed out or 0.25 had passed since its last mark;
      and it has not been placed since. */
  predicate LastMoveDue(s: Solo, step: real, es: seq<Event>)
    requires AllEnabled(es)
  {
    if es == [] then false
    else
      var before, e := es[..|es| - 1], es[|es| - 1];
      match e
      case Enter(_) => false
      case Frame(dt) =>
        if dt <= 0.0 then LastMoveDue(s, step, before)
        else CatchUpDue(Started(Run(s, step, true, before), dt), step, MAX_PLAYER_TICKS, LastMoveDue(s, step, before))
      case _ => LastMoveDue(s, step, before)
  }

  lemma {:induction false} SavedHereOn(fx: seq<Effect>, more: seq<Effect>)
    requires forall i :: 0 <= i < |more| ==> more[i].Shown? || more[i].Marked?
    ensures SavedHere(fx + more) <==> SavedHere(fx)
    decreases |more|
  {
    if more == [] {
      assert fx + more == fx;
    } else {
      assert (fx + more)[..|fx + more| - 1] == fx + more[..|more| - 1];
      SavedHereOn(fx, more[..|more| - 1]);
    }
  }

  lemma TickSaves(s: Solo, step: real)
    requires Steady(s.p) && MOVE_SPEED * step >= DIRTY_DIST
    ensures var t := TickOnce(s, step, true); Steady(t.p) && (SavedHere(t.fx) <==> TickDue(s, SavedHere(s.fx)))
  {
    var t, there := TickOnce(s, step, true), s.fx + [Moved(Ahead(s.p, step))];
    assert s.fx + [] == s.fx;
    if TimedOut(s.p, s.time) {
      assert t.fx[..|t.fx| - 1][|s.fx| + 1].Enqueued?;
    } else if s.p.mv.moving {
      LongStride(s.p, step);
      assert t.fx == there || t.fx[..|t.fx| - 1][|s.fx| + 1].Enqueued?;
    }
  }

  lemma {:induction false} CatchUpSaves(s: Solo, step: real, budget: nat)
    requires Steady(s.p) && MOVE_SPEED * step >= DIRTY_DIST
    ensures var t := CatchUp(s, step, true, budget);
      Steady(t.p) && (SavedHere(t.fx) <==> CatchUpDue(s, step, budget, SavedHere(s.fx)))
    decreases budget
  {
    if budget != 0 && s.clock.acc >= step {
      TickSaves(s, step);
      CatchUpSaves(TickOnce(s, step, true), step, budget - 1);
    }
  }

  lemma EventSaves(s: Solo, step: real, e: Event)
    requires Enabled(e) && Steady(s.p) && MOVE_SPEED * step >= DIRTY_DIST && !e.Frame? && !e.Enter?
    ensures var t := Apply(s, step, true, e); Steady(t.p) && (SavedHere(t.fx) <==> SavedHere(s.fx))
  {
    match e {
      case Steer(dir, r) =>
        SteerSteady(s.p, s.time, dir, r);
        SavedHereOn(s.fx, Steered(s.p, s.time, dir, r).fx);
      case Skill => SavedHereOn(s.fx, [Shown(Attack)]);
      case Blow(damage) => SavedHereOn(s.fx, Hurt(s.p, s.time, damage).fx);
    }
  }

  lemma {:induction false} RunSaves(s: Solo, step: real, es: seq<Event>)
    requires s.fx == [] && Steady(s.p) && AllEnabled(es) && MOVE_SPEED * step >= DIRTY_DIST
    ensures var t := Run(s, step, true, es); Steady(t.p) && (SavedHere(t.fx) <==> LastMoveDue(s, step, es))
    decreases |es|
  {
    if es != [] {
      var before, e := es[..|es| - 1], es[|es| - 1];
      var b := Run(s, step, true, before);
      RunSaves(s, step, before);
      if e.Frame? {
        if e.dt > 0.0 { CatchUpSaves(Started(b, e.dt), step, MAX_PLAYER_TICKS); }
      } else if !e.Enter? {
        EventSaves(b, step, e);
      }
    }
  }

  lemma StopSavesNothing(t: Solo, step: real, r: real)
    ensures var u := Apply(t, step, true, Steer(ZERO, r));
      && u.p.pos == t.p.pos && !u.p.mv.moving
      && (SavedHere(u.fx) <==> SavedHere(t.fx)) && LastSaved(u.fx) == LastSaved(t.fx)
  {
    var u := Apply(t, step, true, Steer(ZERO, r));
    if t.p.mv.moving { assert u.fx[..|u.fx| - 1] == t.fx; } else { assert u.fx == t.fx; }
  }

  /** After any run and a stop by the client: the stop saves nothing, so the player is saved where it now
      stands if and only if 0.25 had passed since its last mark at its last move, however long ago that
      was; then its last snapshot is of this place. */
  lemma StopSavesExactly(s: Solo, step: real, es: seq<Event>, r: real, u: Solo)
    requires s.fx == [] && Steady(s.p) && AllEnabled(es) && MOVE_SPEED * step >= DIRTY_DIST
    requires u == Apply(Run(s, step, true, es), step, true, Steer(ZERO, r))
    ensures u.p.pos == Run(s, step, true, es).p.pos && !u.p.mv.moving
    ensures SavedHere(u.fx) <==> LastMoveDue(s, step, es)
    ensures SavedHere(u.fx) ==> LastSaved(u.fx) == Some(u.p.pos)
  {
    var t := Run(s, step, true, es);
    RunSaves(s, step, es);
    StopSavesNothing(t, step, r);
    SnapshotsFaithful(s, step, true, es);
    if SavedHere(t.fx) { SavedWhere(s.p.pos, t.fx, t.p.pos); }
  }

  lemma LongStride(p: Avatar, step: real)
    requires p.mv.moving && Steady(p) && MOVE_SPEED * step >= DIRTY_DIST
    ensures var d := Minus(Ahead(p, step), p.pos); Dot(d, d) >= DIRTY_DIST * DIRTY_DIST
  {
    var k := Stride(MOVE_SPEED, step);
    assert Minus(Plus(p.pos, Scale(p.mv.dir, k)), p.pos) == Scale(p.mv.dir, k);
    ScaledLength(p.mv.dir, k);
    ProductOrder(DIRTY_DIST, DIRTY_DIST, k, k);
  }
}
