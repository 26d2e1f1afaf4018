/** The FieldWorker and Player objects of worker/fieldWorker.cpp and game/Player.h. Every method is
    proved to do to each player what the machine of FieldPlayers does, to the clocks what FieldClock
    does, and to the direct sends what FieldIntroductions does. */
module FieldWorker {
  import opened Collections
  import opened FieldClock
  import opened FieldPlayers
  import opened Measures
  import Intro = FieldIntroductions

  type Id = nat

  const MAX_MONSTER_TICKS := 3

  /** The spot where the field handler puts a player that enters. */
  const ENTRY := Vec2(102.1, 155.91)

  // ---------------------------------------------------------------- the calls, player by player

  function Of(log: seq<(Id, Effect)>, id: Id): seq<Effect> {
    if log == [] then []
    else
      var (before, last) := (Of(log[..|log| - 1], id), log[|log| - 1]);
      if last.0 == id then before + [last.1] else before
  }

  function Tagged(id: Id, fx: seq<Effect>): seq<(Id, Effect)> {
    seq(|fx|, i requires 0 <= i < |fx| => (id, fx[i]))
  }

  lemma {:induction false} OfTagged(log: seq<(Id, Effect)>, id: Id, fx: seq<Effect>, j: Id)
    ensures Of(log + Tagged(id, fx), j) == Of(log, j) + (if j == id then fx else [])
    decreases |fx|
  {
    if fx == [] {
      assert log + Tagged(id, fx) == log;
    } else {
      var last := fx[|fx| - 1];
      assert (log + Tagged(id, fx)) == (log + Tagged(id, fx[..|fx| - 1])) + [(id, last)];
      OfTagged(log, id, fx[..|fx| - 1], j);
      assert fx == fx[..|fx| - 1] + [last];
    }
  }

  lemma OfTaggedAll(log: seq<(Id, Effect)>, id: Id, fx: seq<Effect>)
    ensures forall j :: Of(log + Tagged(id, fx), j) == Of(log, j) + (if j == id then fx else [])
  {
    forall j ensures Of(log + Tagged(id, fx), j) == Of(log, j) + (if j == id then fx else []) {
      OfTagged(log, id, fx, j);
    }
  }

  // ---------------------------------------------------------------- objects

  class Player {
    const id: Id
    var pos: Vec2
    var mv: MoveState
    var hp: int
    var maxHp: int
    var sp: int
    var lastMark: real

    constructor (id: Id)
      ensures this.id == id && New(View()) && mv.speed == PLAYER_SPEED && hp == maxHp == 500 && sp == 100
    {
      this.id := id;
      pos, mv := ZERO, MoveState(ZERO, false, PLAYER_SPEED, 0.0);
      hp, maxHp, sp, lastMark := 500, 500, 100, 0.0;
    }

    function View(): Avatar
      reads this
    {
      Avatar(pos, mv, hp, maxHp, sp, lastMark)
    }
  }

  /** A session in the eyes of the field: the player it stands for. */
  datatype Caller = Nobody | Caller(playerId: Id)

  class FieldWorker {
    const hasWriter: bool
    const playerStep: real
    const monsterStep: real
    var worldTime: real
    var playerAcc: real
    var monsterAcc: real
    var players: map<Id, Player>
    var monsters: seq<(Id, Vec2)>
    // the calls made for players, the direct sends, and the ticks run
    var log: seq<(Id, Effect)>
    var sends: seq<Intro.Send>
    ghost var playerTicks: nat
    // how many calls of send_field_enter there were when a player came in, and who had a session then
    ghost var joined: map<Id, nat>
    ghost var found: map<Id, set<Id>>
    var monsterTicks: nat

    ghost function Objects(): set<object>
      reads this
    {
      set i | i in players :: players[i]
    }

    ghost predicate Valid()
      reads this, Objects()
    {
      playerStep > 0.0 && monsterStep > 0.0 && forall i :: i in players ==> players[i].id == i
    }

    ghost function PlayerClock(): Clock
      reads this
    {
      Clock(playerAcc, playerTicks)
    }

    ghost function MonsterClock(): Clock
      reads this
    {
      Clock(monsterAcc, monsterTicks)
    }

    ghost function SoloOf(id: Id): Solo
      requires id in players
      reads this, players[id]
    {
      Solo(worldTime, PlayerClock(), players[id].View(), Of(log, id))
    }

    function Positions(): map<Id, Vec2>
      reads this, Objects()
    {
      map i | i in players :: players[i].pos
    }

    /** The field, as far as introductions go. */
    ghost function Roster(): Intro.Roster
      reads this, Objects()
    {
      Intro.Roster(Positions(), monsters, sends, joined, found)
    }

    constructor (hasWriter: bool, playerStep: real, monsterStep: real)
      requires playerStep > 0.0 && monsterStep > 0.0
      ensures Valid() && players == map[] && log == [] && sends == [] && joined == map[] && found == map[]
      ensures PlayerClock() == Clock(0.0, 0) && MonsterClock() == Clock(0.0, 0)
      ensures this.hasWriter == hasWriter && this.playerStep == playerStep && this.monsterStep == monsterStep
    {
      this.hasWriter, this.playerStep, this.monsterStep := hasWriter, playerStep, monsterStep;
      worldTime, playerAcc, monsterAcc, playerTicks, monsterTicks := 0.0, 0.0, 0.0, 0, 0;
      players, monsters, log, sends, joined, found := map[], [], [], [], map[], map[];
    }

    /** What is left alone by everything that only deals with one player. */
    twostate predicate OnlyPlayer(p: Player, o: Outcome)
      reads this, p
    {
      && p.View() == o.p
      && log == old(log) + Tagged(p.id, o.fx)
    }

    method WritePlayerRtEnqueue(p: Player)
      modifies this`log
      ensures log == old(log) + if hasWriter then [(p.id, Enqueued(p.pos, p.hp, p.sp))] else []
    {
      if !hasWriter { return; }
      log := log + [(p.id, Enqueued(p.pos, p.hp, p.sp))];
    }

    method MarkDirtyState(p: Player)
      modifies this`log, p`lastMark
      ensures log == old(log) + Tagged(p.id, Saving(p.View(), hasWriter)) && p.lastMark == worldTime
      ensures log == old(log) + (if hasWriter then [(p.id, Enqueued(p.pos, p.hp, p.sp))] else []) + [(p.id, Marked)]
    {
      WritePlayerRtEnqueue(p);
      log := log + [(p.id, Marked)];
      p.lastMark := worldTime;
    }

    method MarkDirtyPosIfNeeded(p: Player, oldPos: Vec2, newPos: Vec2)
      modifies this`log, p`lastMark
      ensures var d := Minus(newPos, oldPos);
        if d.x * d.x + d.y * d.y >= 0.01 && worldTime - old(p.lastMark) >= 0.25
        then log == old(log) + Tagged(p.id, Saving(p.View(), hasWriter)) && p.lastMark == worldTime
        else log == old(log) && p.lastMark == old(p.lastMark)
    {
      var dx, dy := newPos.x - oldPos.x, newPos.y - oldPos.y;
      var distSq := dx * dx + dy * dy;
      if distSq < DIRTY_DIST * DIRTY_DIST { return; }
      var last := p.lastMark;
      if worldTime - last < DIRTY_INTERVAL { return; }
      MarkDirtyState(p);
    }

    /** One turn of the loop of tick_players. */
    method TickPlayer(p: Player, step: real)
      modifies this`log, p
      ensures OnlyPlayer(p, Ticked(old(p.View()), worldTime, step, hasWriter))
      ensures var expired := old(p.mv.moving) && worldTime - old(p.mv.lastInput) > 0.5;
        && (old(p.mv.moving) && !expired ==>
              && p.pos == Vec2(old(p.pos.x) + old(p.mv.dir.x) * (old(p.mv.speed) * step),
                               old(p.pos.y) + old(p.mv.dir.y) * (old(p.mv.speed) * step))
              && p.mv == old(p.mv) && old(log) + [(p.id, Moved(p.pos))] <= log)
        && (expired ==> p.pos == old(p.pos) && !p.mv.moving && p.mv.speed == 0.0 && old(log) + [(p.id, Shown(Idle))] <= log)
        && (!old(p.mv.moving) ==> p.View() == old(p.View()) && log == old(log))
    {
      if p.mv.moving && worldTime - p.mv.lastInput > INPUT_TIMEOUT {
        p.mv := p.mv.(moving := false, dir := ZERO, speed := 0.0);
        log := log + [(p.id, Shown(Idle))];
        MarkDirtyState(p);
        return;
      }
      if !p.mv.moving { return; }
      var oldPos := p.pos;
      var newPos := Plus(oldPos, Scale(p.mv.dir, Stride(p.mv.speed, step)));
      p.pos := newPos;
      log := log + [(p.id, Moved(newPos))];
      MarkDirtyPosIfNeeded(p, oldPos, newPos);
    }

    method TickOne(id: Id, step: real)
      requires Valid() && id in players
      modifies this`log, players[id]
      ensures Valid()
      ensures SoloOf(id) == Done(old(SoloOf(id)), Ticked(old(SoloOf(id)).p, worldTime, step, hasWriter))
      ensures forall i :: i in players && i != id ==> SoloOf(i) == old(SoloOf(i))
      ensures forall j :: j !in players ==> Of(log, j) == old(Of(log, j))
    {
      ghost var fx := Ticked(players[id].View(), worldTime, step, hasWriter).fx;
      OfTaggedAll(log, id, fx);
      TickPlayer(players[id], step);
    }

    /** All players, in any order. */
    method TickPlayers(step: real)
      requires Valid()
      modifies this`log, Objects()
      ensures Valid()
      ensures forall i :: i in players ==>
        SoloOf(i) == Done(old(SoloOf(i)), Ticked(old(SoloOf(i)).p, worldTime, step, hasWriter))
      ensures forall j :: j !in players ==> Of(log, j) == old(Of(log, j))
    {
      var rest := players.Keys;
      while rest != {}
        invariant rest <= players.Keys && Valid()
        invariant forall i :: i in rest ==> SoloOf(i) == old(SoloOf(i))
        invariant forall i :: i in players && i !in rest ==>
          SoloOf(i) == Done(old(SoloOf(i)), Ticked(old(SoloOf(i)).p, worldTime, step, hasWriter))
        invariant forall j :: j !in players ==> Of(log, j) == old(Of(log, j))
      {
        var id :| id in rest;
        TickOne(id, step);
        rest := rest - {id};
      }
    }

    /** One turn of the catch-up loop. */
    method PlayerTurn()
      requires Valid()
      modifies this`log, this`playerAcc, this`playerTicks, Objects()
      ensures Valid() && PlayerClock() == Clock(old(playerAcc) - playerStep, old(playerTicks) + 1)
      ensures forall i :: i in players ==> SoloOf(i) == TickOnce(old(SoloOf(i)), playerStep, hasWriter)
      ensures forall j :: j !in players ==> Of(log, j) == old(Of(log, j))
    {
      TickPlayers(playerStep);
      playerAcc := playerAcc - playerStep;
      playerTicks := playerTicks + 1;
    }

    /** A turn brings the loop one turn nearer to where it ends. */
    method PlayerTurnOf(ghost budget: nat)
      requires Valid() && playerAcc >= playerStep && budget > 0
      modifies this`log, this`playerAcc, this`playerTicks, Objects()
      ensures Valid() && CaughtUp(PlayerClock(), playerStep, budget - 1) == CaughtUp(old(PlayerClock()), playerStep, budget)
      ensures forall i :: i in players ==>
        CatchUp(SoloOf(i), playerStep, hasWriter, budget - 1) == CatchUp(old(SoloOf(i)), playerStep, hasWriter, budget)
      ensures forall j :: j !in players ==> Of(log, j) == old(Of(log, j))
    {
      CaughtUpTurns(PlayerClock(), playerStep, budget);
      PlayerTurn();
      forall i | i in players
        ensures CatchUp(SoloOf(i), playerStep, hasWriter, budget - 1) == CatchUp(old(SoloOf(i)), playerStep, hasWriter, budget)
      {
        CatchUpTurns(old(SoloOf(i)), playerStep, hasWriter, budget);
      }
    }

    method CatchUpPlayers()
      requires Valid()
      modifies this`log, this`playerAcc, this`playerTicks, Objects()
      ensures Valid() && PlayerClock() == CaughtUp(old(PlayerClock()), playerStep, MAX_PLAYER_TICKS)
      ensures forall i :: i in players ==> SoloOf(i) == CatchUp(old(SoloOf(i)), playerStep, hasWriter, MAX_PLAYER_TICKS)
      ensures forall j :: j !in players ==> Of(log, j) == old(Of(log, j))
    {
      var playerLoops := 0;
      while playerAcc >= playerStep && playerLoops < MAX_PLAYER_TICKS
        invariant 0 <= playerLoops <= MAX_PLAYER_TICKS && Valid()
        invariant CaughtUp(PlayerClock(), playerStep, MAX_PLAYER_TICKS - playerLoops)
               == CaughtUp(old(PlayerClock()), playerStep, MAX_PLAYER_TICKS)
        invariant forall i :: i in players ==>
          CatchUp(SoloOf(i), playerStep, hasWriter, MAX_PLAYER_TICKS - playerLoops)
          == CatchUp(old(SoloOf(i)), playerStep, hasWriter, MAX_PLAYER_TICKS)
        invariant forall j :: j !in players ==> Of(log, j) == old(Of(log, j))
        decreases MAX_PLAYER_TICKS - playerLoops
      {
        PlayerTurnOf(MAX_PLAYER_TICKS - playerLoops);
        playerLoops := playerLoops + 1;
      }
    }

    method StartFrame(dt: real)
      requires Valid() && dt > 0.0
      modifies this`worldTime, this`playerAcc
      ensures Valid() && PlayerClock() == old(PlayerClock()).(acc := old(playerAcc) + dt) && worldTime == old(worldTime) + dt
      ensures forall i :: i in players ==> SoloOf(i) == Started(old(SoloOf(i)), dt)
    {
      worldTime := worldTime + dt;
      playerAcc := playerAcc + dt;
    }

    /** The monsters' own systems are elsewhere; their ticks are counted. */
    method CatchUpMonsters(dt: real)
      requires Valid() && dt > 0.0
      modifies this`monsterAcc, this`monsterTicks
      ensures Valid() && PlayerClock() == old(PlayerClock())
      ensures MonsterClock() == Framed(old(MonsterClock()), monsterStep, MAX_MONSTER_TICKS, dt)
      ensures forall i :: i in players ==> SoloOf(i) == old(SoloOf(i))
    {
      var monsterLoops := 0;
      monsterAcc := monsterAcc + dt;
      while monsterAcc >= monsterStep && monsterLoops < MAX_MONSTER_TICKS
        invariant 0 <= monsterLoops <= MAX_MONSTER_TICKS
        invariant CaughtUp(MonsterClock(), monsterStep, MAX_MONSTER_TICKS - monsterLoops)
               == CaughtUp(old(MonsterClock()).(acc := old(monsterAcc) + dt), monsterStep, MAX_MONSTER_TICKS)
        decreases MAX_MONSTER_TICKS - monsterLoops
      {
        CaughtUpTurns(MonsterClock(), monsterStep, MAX_MONSTER_TICKS - monsterLoops);
        monsterTicks := monsterTicks + 1;
        monsterAcc := monsterAcc - monsterStep;
        monsterLoops := monsterLoops + 1;
      }
    }

    method UpdateWorld(dt: real)
      requires Valid()
      modifies this`worldTime, this`log, this`playerAcc, this`playerTicks, this`monsterAcc, this`monsterTicks, Objects()
      ensures Valid()
      ensures PlayerClock() == Framed(old(PlayerClock()), playerStep, 5, dt)
      ensures MonsterClock() == Framed(old(MonsterClock()), monsterStep, 3, dt)
      ensures worldTime == if dt > 0.0 then old(worldTime) + dt else old(worldTime)
      ensures forall i :: i in players ==>
        SoloOf(i) == FieldPlayers.Apply(old(SoloOf(i)), playerStep, hasWriter, Frame(dt))
      ensures forall j :: j !in players ==> Of(log, j) == old(Of(log, j))
    {
      if dt <= 0.0 { return; }
      StartFrame(dt);
      CatchUpPlayers();
      CatchUpMonsters(dt);
      forall i | i in players
        ensures SoloOf(i) == FieldPlayers.Apply(old(SoloOf(i)), playerStep, hasWriter, Frame(dt))
      {
        FrameIs(old(SoloOf(i)), playerStep, hasWriter, dt);
      }
    }

    /** The input proper. */
    method SteerPlayer(p: Player, dir: Vec2, r: real)
      requires FieldPlayers.Enabled(Steer(dir, r))
      modifies this`log, p`mv
      ensures OnlyPlayer(p, Steered(old(p.View()), worldTime, dir, r))
      ensures p.mv.lastInput == worldTime
      ensures if dir.x * dir.x + dir.y * dir.y < 0.0001 then !p.mv.moving && (old(p.mv.moving) ==> p.mv.speed == 0.0)
              else p.mv.moving && p.mv.speed == 4.5 && p.mv.dir == Vec2(dir.x * (1.0 / r), dir.y * (1.0 / r))
      ensures log == old(log) + (if old(p.mv.moving) == p.mv.moving then []
                                 else [(p.id, Shown(if p.mv.moving then Chase else Idle))])
    {
      var dx, dy := dir.x, dir.y;
      var len2 := dx * dx + dy * dy;
      p.mv := p.mv.(lastInput := worldTime);
      if len2 < DEAD_ZONE {
        if !p.mv.moving { return; }
        p.mv := p.mv.(moving := false, dir := ZERO, speed := 0.0);
        log := log + [(p.id, Shown(Idle))];
        return;
      }
      var invLen := 1.0 / r;
      var wasMoving := p.mv.moving;
      p.mv := p.mv.(moving := true, dir := Vec2(dx * invLen, dy * invLen), speed := MOVE_SPEED);
      if !wasMoving {
        log := log + [(p.id, Shown(Chase))];
      }
    }

    /** A move command from a session; dir may be missing, r is the root of its square length. */
    method OnClientMoveInput(caller: Caller, entityId: Id, isMove: bool, dir: Option<Vec2>, r: real)
      requires Valid()
      requires dir.Some? ==> FieldPlayers.Enabled(Steer(dir.value, r))
      modifies this`log, Objects()
      ensures Valid()
      ensures var heard := caller.Caller? && caller.playerId == entityId && isMove && entityId in players && dir.Some?;
        && (forall i :: i in players && !(heard && i == entityId) ==> SoloOf(i) == old(SoloOf(i)))
        && (heard ==>
              SoloOf(entityId) == FieldPlayers.Apply(old(SoloOf(entityId)), playerStep, hasWriter, Steer(dir.value, r)))
      ensures forall j :: j !in players ==> Of(log, j) == old(Of(log, j))
    {
      if caller.Nobody? { return; }
      if caller.playerId != entityId { return; }
      if !isMove { return; }
      if entityId !in players { return; }
      if dir.None? { return; }
      var p := players[entityId];
      OfTaggedAll(log, entityId, Steered(p.View(), worldTime, dir.value, r).fx);
      SteerPlayer(p, dir.value, r);
    }

    /** A skill is announced, whoever is named. */
    method HandleSkill(caller: Caller)
      requires Valid()
      modifies this`log
      ensures forall i :: i in players ==>
        SoloOf(i) == (if caller == Caller(i) then FieldPlayers.Apply(old(SoloOf(i)), playerStep, hasWriter, Skill)
                      else old(SoloOf(i)))
      ensures log == old(log) + (if caller.Nobody? then [] else [(caller.playerId, Shown(Attack))])
    {
      if caller.Nobody? { return; }
      OfTaggedAll(log, caller.playerId, [Shown(Attack)]);
      log := log + [(caller.playerId, Shown(Attack))];
      assert log == old(log) + Tagged(caller.playerId, [Shown(Attack)]);
    }

    /** A monster's blow at a player of this field. */
    method AttackPlayer(id: Id, damage: int)
      requires Valid() && id in players
      modifies this`log, players[id]
      ensures Valid()
      ensures SoloOf(id) == FieldPlayers.Apply(old(SoloOf(id)), playerStep, hasWriter, Blow(damage))
      ensures 0 <= damage && 0 < old(players[id].hp) <= old(players[id].maxHp) ==>
        && players[id].hp == (if damage <= old(players[id].hp) then old(players[id].hp) - damage else 0)
        && log == old(log) + (if damage == 0 then [] else [(id, Marked)])
             + (if damage >= old(players[id].hp) then [(id, Shown(Dead))] else [])
      ensures forall i :: i in players && i != id ==> SoloOf(i) == old(SoloOf(i))
    {
      var p := players[id];
      ghost var fx := Hurt(p.View(), worldTime, damage).fx;
      OfTaggedAll(log, id, fx);
      var newHp := if p.hp - damage < 0 then 0 else p.hp - damage;
      if newHp != p.hp {
        p.hp := if newHp > p.maxHp then p.maxHp else newHp;
        p.lastMark := worldTime;
        log := log + [(id, Marked)];
        if newHp <= 0 {
          log := log + [(id, Shown(Dead))];
        }
      }
      assert log == old(log) + Tagged(id, fx);
    }

    /** Tells a newcomer of the others. */
    method TellOfOthers(pid: Id, ghost at: map<Id, Vec2>, online: set<Id>) returns (ghost first: seq<Id>)
      requires Valid() && pid in players && at == Positions()
      modifies this`sends
      ensures Lists(first, at.Keys - {pid}) && (forall o :: o in first ==> o in at)
      ensures sends == old(sends) + Intro.TellOfPlayers(pid, at, first, online)
    {
      first := [];
      var rest := players.Keys;
      while rest != {}
        invariant rest <= players.Keys == at.Keys && (forall o :: o in at ==> players[o].pos == at[o])
        invariant Lists(first, at.Keys - {pid} - rest) && (forall o :: o in first ==> o in at)
        invariant sends == old(sends) + Intro.TellOfPlayers(pid, at, first, online)
      {
        var otherId :| otherId in rest;
        rest := rest - {otherId};
        if otherId != pid {
          sends := sends + [Intro.Tell(pid, otherId, false, players[otherId].pos, online)];
          first := first + [otherId];
        }
      }
    }

    /** Tells a newcomer of the monsters. */
    method TellOfMonsters(pid: Id, online: set<Id>)
      modifies this`sends
      ensures sends == old(sends) + Intro.TellOfMonsters(pid, monsters, online)
    {
      for i := 0 to |monsters|
        invariant sends == old(sends) + Intro.TellOfMonsters(pid, monsters[..i], online)
      {
        sends := sends + [Intro.Tell(pid, monsters[i].0, true, monsters[i].1, online)];
      }
      assert monsters[..|monsters|] == monsters;
    }

    /** Tells the others of a newcomer. */
    method TellOthers(pid: Id, pos: Vec2, online: set<Id>) returns (ghost second: seq<Id>)
      requires Valid() && pid in players
      modifies this`sends
      ensures Lists(second, players.Keys - {pid})
      ensures sends == old(sends) + Intro.TellPlayers(second, pid, pos, online)
    {
      second := [];
      var rest := players.Keys;
      while rest != {}
        invariant rest <= players.Keys
        invariant Lists(second, players.Keys - {pid} - rest)
        invariant sends == old(sends) + Intro.TellPlayers(second, pid, pos, online)
      {
        var otherId :| otherId in rest;
        rest := rest - {otherId};
        if otherId != pid {
          sends := sends + [Intro.Tell(otherId, pid, false, pos, online)];
          second := second + [otherId];
        }
      }
    }

    method OnPlayerEnterField(player: Player, ghost at: map<Id, Vec2>, online: set<Id>)
      returns (ghost first: seq<Id>, ghost second: seq<Id>)
      requires Valid() && player.id in players && players[player.id] == player && at == Positions()
      modifies this`log, this`sends
      ensures log == old(log) + [(player.id, Placed(player.pos))]
      ensures Lists(first, at.Keys - {player.id}) && (forall o :: o in first ==> o in at)
      ensures Lists(second, at.Keys - {player.id})
      ensures sends == old(sends) + Intro.JoinSends(at, monsters, player.id, player.pos, first, second, online)
    {
      ghost var before := sends;
      log := log + [(player.id, Placed(player.pos))];
      sends := sends + [Intro.Tell(player.id, player.id, false, player.pos, online)];
      assert at == Positions();
      first := TellOfOthers(player.id, at, online);
      TellOfMonsters(player.id, online);
      second := TellOthers(player.id, player.pos, online);
      ghost var self := [Intro.Tell(player.id, player.id, false, player.pos, online)];
      ghost var others := Intro.TellOfPlayers(player.id, at, first, online);
      Regroup(before, self, others);
      Regroup(before, self + others, Intro.TellOfMonsters(player.id, monsters, online));
      Regroup(before, self + others + Intro.TellOfMonsters(player.id, monsters, online),
              Intro.TellPlayers(second, player.id, player.pos, online));
    }

    /** A player comes in, or comes in again; `online` are the players with a session. */
    method AddPlayer(player: Player?, online: set<Id>) returns (ghost first: seq<Id>, ghost second: seq<Id>)
      requires Valid()
      modifies this`players, this`log, this`sends, this`joined, this`found
      ensures Valid()
      ensures player == null ==> players == old(players) && log == old(log) && Roster() == old(Roster())
      ensures player != null ==>
        && players == old(players)[player.id := player]
        && log == old(log) + [(player.id, Placed(player.pos))]
      ensures player != null ==>
        var e := Intro.Join(player.id, player.pos, first, second, online);
        Intro.Enabled(old(Roster()), e) && Roster() == Intro.Apply(old(Roster()), e)
    {
      first, second := [], [];
      if player == null { return; }
      ghost var r := Roster();
      players := players[player.id := player];
      joined, found := joined[player.id := |sends|], found[player.id := online];
      ghost var at := Positions();
      assert at == r.players[player.id := player.pos];
      first, second := OnPlayerEnterField(player, at, online);
      assert at == Positions();
      JoinSent(r, at, player.id, player.pos, first, second, online, sends);
    }

    method RemovePlayer(playerId: Id)
      requires Valid()
      modifies this`players, this`log, this`joined, this`found
      ensures Valid()
      ensures log == old(log) + [(playerId, Dropped)]
      ensures Roster() == Intro.Apply(old(Roster()), Intro.Leave(playerId)) && players == old(players) - {playerId}
    {
      log := log + [(playerId, Dropped)];
      players := players - {playerId};
      joined, found := joined - {playerId}, found - {playerId};
    }

    /** The end of the handler for a player's wish to enter the field: it is put on the entry spot. */
    method OnRecvEnterField(player: Player, online: set<Id>) returns (ghost first: seq<Id>, ghost second: seq<Id>)
      requires Valid() && (player.id in players ==> players[player.id] == player)
      modifies this`players, this`log, this`sends, this`joined, this`found, player`pos
      ensures Valid() && players == old(players)[player.id := player]
      ensures player.id in old(players) ==>
        SoloOf(player.id) == FieldPlayers.Apply(old(SoloOf(player.id)), playerStep, hasWriter, Enter(ENTRY))
      ensures player.pos == Vec2(102.1, 155.91) && log == old(log) + [(player.id, Placed(player.pos))]
      ensures forall i :: i in old(players) && i != player.id ==> SoloOf(i) == old(SoloOf(i))
    {
      OfTaggedAll(log, player.id, [Placed(ENTRY)]);
      player.pos := ENTRY;
      first, second := AddPlayer(player, online);
      assert log == old(log) + Tagged(player.id, [Placed(ENTRY)]);
    }
  }

  lemma FrameIs(s: Solo, step: real, writer: bool, dt: real)
    requires dt > 0.0
    ensures FieldPlayers.Apply(s, step, writer, Frame(dt)) == CatchUp(Started(s, dt), step, writer, MAX_PLAYER_TICKS)
  {
  }

  lemma JoinSent(r: Intro.Roster, at: map<Id, Vec2>, pid: Id, pos: Vec2,
                 first: seq<Id>, second: seq<Id>, online: set<Id>, sends: seq<Intro.Send>)
    requires at == r.players[pid := pos] && (forall o :: o in first ==> o in at)
    requires Lists(first, at.Keys - {pid}) && Lists(second, at.Keys - {pid})
    requires sends == r.sends + Intro.JoinSends(at, r.monsters, pid, pos, first, second, online)
    ensures var e := Intro.Join(pid, pos, first, second, online);
      && Intro.Enabled(r, e)
      && Intro.Apply(r, e) == Intro.Roster(at, r.monsters, sends, r.joined[pid := |r.sends|], r.found[pid := online])
  {
    assert at.Keys - {pid} == r.players.Keys - {pid};
    assert forall o :: o in first ==> o in r.players.Keys - {pid};
    assert Intro.TellOfPlayers(pid, at, first, online) == Intro.TellOfPlayers(pid, r.players, first, online);
  }

  /** What the catch-up loop does to a clock. */
  function CaughtUp(c: Clock, step: real, budget: nat): Clock {
    Clock(c.acc - Span(step, Ticks(c.acc, step, budget)), c.ticks + Ticks(c.acc, step, budget))
  }

  lemma CaughtUpTurns(c: Clock, step: real, budget: nat)
    requires c.acc >= step && budget > 0
    ensures CaughtUp(Clock(c.acc - step, c.ticks + 1), step, budget - 1) == CaughtUp(c, step, budget)
  {
  }

  lemma CatchUpTurns(s: Solo, step: real, writer: bool, budget: nat)
    requires s.clock.acc >= step && budget > 0
    ensures CatchUp(TickOnce(s, step, writer), step, writer, budget - 1) == CatchUp(s, step, writer, budget)
  {
  }
}
