/** What a client comes to believe: the announcements of the sector grid (AoiModel) together with the
    direct Enter commands of worker/fieldWorker.cpp (FieldIntroductions), in one machine.

    The grid shows a client the entities near it. But a join also tells the newcomer of every player and
    every monster of the field, and every player of the newcomer, wherever they are.
    And a player that leaves is told nothing, so if it comes back it still believes what it did.
 */
module FieldViews {
  import opened AoiModel
  import opened Collections
  import opened Measures
  import Intro = FieldIntroductions

  /** `w` is the grid, `roster` the maps of the field. `believed` is what each client makes of all it was
      told, as (watcher, subject); `standing` what it was told directly, or believed when it left the
      field, that no Leave was sent to it for since. `gone` are the players whose session is closed; a
      player's session does not come back. */
  datatype Field = Field(
    w: World,
    roster: Intro.Roster,
    believed: set<(Id, Id)>,
    standing: set<(Id, Id)>,
    gone: set<Id>)

  datatype FieldEvent =
    | PlayerJoins(id: Id, pos: Vec2, first: seq<Id>, second: seq<Id>)
    | PlayerLeaves(id: Id)
    | PlayerWalks(id: Id, pos: Vec2)
    | Monsters(op: Op, monsters: seq<(Id, Vec2)>)
    | Disconnects(id: Id)

  const EMPTY_FIELD := Field(NOTHING, Intro.Roster(map[], [], [], map[], map[]), {}, {}, {})

  function Spot(v: Vec2): Pos { Pos(v.x, v.y) }

  // ---------------------------------------------------------------- steps

  function OnGrid(cfg: Config, f: Field, op: Op): Field
    requires cfg.Valid()
  {
    f.(w := Step(cfg, f.w, op), believed := Told(cfg, f.w, op, f.believed),
       standing := Standing(cfg, f.w, op, f.believed, f.standing))
  }

  /** The Enters of these calls that arrive. */
  function Arrived(sends: seq<Intro.Send>): set<(Id, Id)> {
    set k | 0 <= k < |sends| && sends[k].delivered :: (sends[k].watcher, sends[k].subject)
  }

  /** The players present, and the newcomer, whose sessions are open. */
  function Online(f: Field, id: Id): set<Id> { f.roster.players.Keys + {id} - f.gone }

  function JoinOf(f: Field, e: FieldEvent): Intro.Event
    requires e.PlayerJoins?
  {
    Intro.Join(e.id, e.pos, e.first, e.second, Online(f, e.id))
  }

  ghost predicate Possible(f: Field, e: FieldEvent) {
    match e
    case PlayerJoins(id, _, _, _) =>
      Intro.Enabled(f.roster, JoinOf(f, e)) && (id in f.w.ents ==> id in f.roster.players)
    case PlayerLeaves(_) => true
    case PlayerWalks(id, _) => id in f.roster.players
    case Monsters(op, _) => op.id !in f.roster.players && !AddsPlayer(op)
    case Disconnects(_) => true
  }

  function Joined(cfg: Config, f: Field, e: FieldEvent): Field
    requires cfg.Valid() && e.PlayerJoins? && Intro.Enabled(f.roster, JoinOf(f, e))
  {
    var g := OnGrid(cfg, f, Add(e.id, true, Spot(e.pos)));
    var roster := Intro.Apply(f.roster, JoinOf(f, e));
    var news := Arrived(roster.sends[|f.roster.sends|..]);
    g.(roster := roster, believed := g.believed + news, standing := g.standing + news)
  }

  function After(cfg: Config, f: Field, e: FieldEvent): Field
    requires cfg.Valid() && Possible(f, e)
  {
    match e
    case PlayerJoins(_, _, _, _) => Joined(cfg, f, e)
    case PlayerLeaves(id) => OnGrid(cfg, f, Remove(id)).(roster := Intro.Apply(f.roster, Intro.Leave(id)))
    case PlayerWalks(id, pos) =>
      OnGrid(cfg, f, MoveTo(id, Spot(pos))).(roster := f.roster.(players := f.roster.players[id := pos]))
    case Monsters(op, monsters) => OnGrid(cfg, f, op).(roster := f.roster.(monsters := monsters))
    case Disconnects(id) => f.(gone := f.gone + {id})
  }

  ghost predicate PossibleRun(cfg: Config, f: Field, es: seq<FieldEvent>)
    requires cfg.Valid()
    decreases |es|
  {
    es == [] || (Possible(f, es[0]) && PossibleRun(cfg, After(cfg, f, es[0]), es[1..]))
  }

  function AfterAll(cfg: Config, f: Field, es: seq<FieldEvent>): Field
    requires cfg.Valid() && PossibleRun(cfg, f, es)
    decreases |es|
  {
    if es == [] then f else AfterAll(cfg, After(cfg, f, es[0]), es[1..])
  }

  // ---------------------------------------------------------------- what a client believes

  /** The client of x believes in s exactly if the grid shows it or that stands. */
  ghost predicate Explained(f: Field, p: (Id, Id)) { p in f.believed <==> p in f.w.seen || p in f.standing }

  lemma GridExplains(cfg: Config, f: Field, op: Op, p: (Id, Id))
    requires cfg.Valid() && Explained(f, p)
    ensures Explained(OnGrid(cfg, f, op), p)
  {
    assert f.w.(seen := f.w.seen) == f.w;
    ToldAlike(cfg, f.w, op, f.w.seen, f.believed, p);
    if p in f.standing {
      ToldAlike(cfg, f.w, op, f.believed, f.standing, p);
      ToldAlike(cfg, f.w, op, f.standing, f.believed, p);
    } else {
      ToldAlike(cfg, f.w, op, f.believed, f.w.seen, p);
    }
  }

  lemma AfterExplains(cfg: Config, f: Field, e: FieldEvent, p: (Id, Id))
    requires cfg.Valid() && Possible(f, e) && Explained(f, p)
    ensures Explained(After(cfg, f, e), p)
  {
    match e {
      case PlayerJoins(id, pos, _, _) => GridExplains(cfg, f, Add(id, true, Spot(pos)), p);
      case PlayerLeaves(id) => GridExplains(cfg, f, Remove(id), p);
      case PlayerWalks(id, pos) => GridExplains(cfg, f, MoveTo(id, Spot(pos)), p);
      case Monsters(op, _) => GridExplains(cfg, f, op, p);
      case Disconnects(_) =>
    }
  }

  lemma {:induction false} RunExplains(cfg: Config, f: Field, es: seq<FieldEvent>, p: (Id, Id))
    requires cfg.Valid() && PossibleRun(cfg, f, es) && Explained(f, p)
    ensures Explained(AfterAll(cfg, f, es), p)
    decreases |es|
  {
    if es != [] {
      AfterExplains(cfg, f, es[0], p);
      RunExplains(cfg, After(cfg, f, es[0]), es[1..], p);
    }
  }

  /** In every run, entries of players that are already there included: the client of x believes in s if
      and only if the grid shows s to x, or that stands from a direct Enter or from before x left. For a
      closed session this is what the client would believe. */
  lemma BelievedOverGrid(cfg: Config, es: seq<FieldEvent>, x: Id, s: Id)
    requires cfg.Valid() && PossibleRun(cfg, EMPTY_FIELD, es)
    ensures var f := AfterAll(cfg, EMPTY_FIELD, es);
      (x, s) in f.believed <==> (x, s) in f.w.seen || (x, s) in f.standing
  {
    RunExplains(cfg, EMPTY_FIELD, es, (x, s));
  }

  // ---------------------------------------------------------------- the grid within a run

  /** The players of the field are the players on the grid, and the grid's invariant holds. */
  ghost predicate InStep(cfg: Config, f: Field) {
    && Inv(cfg, f.w)
    && (forall i :: i in f.roster.players <==> i in f.w.ents && f.w.ents[i].isPlayer)
  }

  /** Whoever is put on the grid is not there, or is put into the sector it is in. */
  ghost predicate Tidy(cfg: Config, f: Field, e: FieldEvent)
    requires cfg.Valid()
  {
    match OpOf(e)
    case None => true
    case Some(op) => Proper(cfg, f.w, op)
  }

  ghost predicate TidyRun(cfg: Config, f: Field, es: seq<FieldEvent>)
    requires cfg.Valid() && PossibleRun(cfg, f, es)
    decreases |es|
  {
    es == [] || (Tidy(cfg, f, es[0]) && TidyRun(cfg, After(cfg, f, es[0]), es[1..]))
  }

  lemma StepEnts(cfg: Config, w: World, op: Op, i: Id)
    requires Inv(cfg, w)
    ensures var w' := Step(cfg, w, op);
      i in w'.ents && w'.ents[i].isPlayer <==>
        (if i != op.id || op.MoveTo? then i in w.ents && w.ents[i].isPlayer else AddsPlayer(op))
  {
    match op {
      case Add(id, isPlayer, pos) => AddedEnts(cfg, w, id, isPlayer, pos);
      case Remove(id) =>
      case MoveTo(id, pos) =>
        if id in w.ents {
          SteppedIndex(cfg, w, id, pos);
          ResubscribedKeeps(cfg, Stepped(cfg, w, id, pos), id);
        }
    }
  }

  function OpOf(e: FieldEvent): Option<Op> {
    match e
    case PlayerJoins(id, pos, _, _) => Some(Add(id, true, Spot(pos)))
    case PlayerLeaves(id) => Some(Remove(id))
    case PlayerWalks(id, pos) => Some(MoveTo(id, Spot(pos)))
    case Monsters(op, _) => Some(op)
    case Disconnects(_) => None
  }

  lemma AfterInStep(cfg: Config, f: Field, e: FieldEvent)
    requires InStep(cfg, f) && Possible(f, e) && Tidy(cfg, f, e)
    ensures InStep(cfg, After(cfg, f, e))
  {
    if !e.Disconnects? {
      var op := OpOf(e).value;
      StepKeeps(cfg, f.w, op);
      forall i ensures i in After(cfg, f, e).roster.players <==>
        i in Step(cfg, f.w, op).ents && Step(cfg, f.w, op).ents[i].isPlayer
      {
        StepEnts(cfg, f.w, op, i);
      }
    }
  }

  lemma {:induction false} RunInStep(cfg: Config, f: Field, es: seq<FieldEvent>)
    requires InStep(cfg, f) && PossibleRun(cfg, f, es) && TidyRun(cfg, f, es)
    ensures InStep(cfg, AfterAll(cfg, f, es))
    decreases |es|
  {
    if es != [] {
      AfterInStep(cfg, f, es[0]);
      RunInStep(cfg, After(cfg, f, es[0]), es[1..]);
    }
  }

  ghost predicate Accounted(f: Field, x: Id, s: Id) { Explains(f.w, f.believed, f.standing, x, s) }

  lemma AfterAccounts(cfg: Config, f: Field, e: FieldEvent, x: Id, s: Id)
    requires InStep(cfg, f) && Possible(f, e) && Tidy(cfg, f, e) && x != s && Accounted(f, x, s)
    ensures Accounted(After(cfg, f, e), x, s)
  {
    if !e.Disconnects? { StepExplains(cfg, f.w, OpOf(e).value, f.believed, f.standing, x, s); }
  }

  lemma {:induction false} RunAccounts(cfg: Config, f: Field, es: seq<FieldEvent>, x: Id, s: Id)
    requires InStep(cfg, f) && PossibleRun(cfg, f, es) && TidyRun(cfg, f, es) && x != s && Accounted(f, x, s)
    ensures Accounted(AfterAll(cfg, f, es), x, s)
    decreases |es|
  {
    if es != [] {
      AfterAccounts(cfg, f, es[0], x, s);
      AfterInStep(cfg, f, es[0]);
      RunAccounts(cfg, After(cfg, f, es[0]), es[1..], x, s);
    }
  }

  /** In every run of joins, leaves, returns, moves, monsters coming and going, and closed sessions: the
      client of x believes in s if and only if s is in its square of sectors, or it was told of s directly
      or believed in s when it left the field, and was not told of a Leave of s since. */
  lemma BelievedExactly(cfg: Config, es: seq<FieldEvent>, x: Id, s: Id)
    requires cfg.Valid() && PossibleRun(cfg, EMPTY_FIELD, es) && TidyRun(cfg, EMPTY_FIELD, es) && x != s
    ensures var f := AfterAll(cfg, EMPTY_FIELD, es);
      (x, s) in f.believed <==> InSquare(cfg, f.w, x, s) || (x, s) in f.standing
  {
    assert Inv(cfg, NOTHING);
    RunAccounts(cfg, EMPTY_FIELD, es, x, s);
    RunInStep(cfg, EMPTY_FIELD, es);
  }

  /** So a client's belief is its square exactly as long as all that stands is in the square. */
  lemma SquareExactly(cfg: Config, es: seq<FieldEvent>, x: Id)
    requires cfg.Valid() && PossibleRun(cfg, EMPTY_FIELD, es) && TidyRun(cfg, EMPTY_FIELD, es)
    ensures var f := AfterAll(cfg, EMPTY_FIELD, es);
      (forall s: Id :: s != x ==> ((x, s) in f.believed <==> InSquare(cfg, f.w, x, s)))
      <==> (forall s: Id :: s != x && (x, s) in f.standing ==> InSquare(cfg, f.w, x, s))
  {
    var f := AfterAll(cfg, EMPTY_FIELD, es);
    forall s: Id | s != x
      ensures (x, s) in f.believed <==> InSquare(cfg, f.w, x, s) || (x, s) in f.standing
    {
      BelievedExactly(cfg, es, x, s);
    }
  }

  // ---------------------------------------------------------------- one join

  /** Someone or something of the field other than x. */
  ghost predicate InField(f: Field, s: Id) {
    s in f.roster.players || exists k :: 0 <= k < |f.roster.monsters| && f.roster.monsters[k].0 == s
  }

  /** The newcomer's client is told directly of exactly the whole field. */
  lemma NewsToNewcomer(f: Field, e: FieldEvent, s: Id)
    requires e.PlayerJoins? && Intro.Enabled(f.roster, JoinOf(f, e)) && e.id !in f.gone && s != e.id
    ensures var sends := Intro.Apply(f.roster, JoinOf(f, e)).sends;
      |f.roster.sends| <= |sends| && ((e.id, s) in Arrived(sends[|f.roster.sends|..]) <==> InField(f, s))
  {
    var r, j := f.roster, JoinOf(f, e);
    var news := Intro.JoinSends(r.players, r.monsters, j.id, j.pos, j.first, j.second, j.online);
    assert Intro.Apply(r, j).sends[|r.sends|..] == news;
    if s in r.players {
      var told, _ := Intro.JoinIntroduces(r.players, r.monsters, j.id, j.pos, j.first, j.second, j.online, s);
      assert news[told].delivered;
    }
    forall k | 0 <= k < |r.monsters| && r.monsters[k].0 == s ensures (e.id, s) in Arrived(news) {
      assert news[1 + |j.first| + k] == Intro.Tell(e.id, s, true, r.monsters[k].1, j.online);
    }
    if (e.id, s) in Arrived(news) {
      var k :| 0 <= k < |news| && news[k].delivered && (news[k].watcher, news[k].subject) == (e.id, s);
      NewcomerHears(r, j, s, k);
    }
  }

  lemma NewcomerHears(r: Intro.Roster, j: Intro.Event, s: Id, k: nat)
    requires j.Join? && Intro.Enabled(r, j) && s != j.id
    requires var news := Intro.JoinSends(r.players, r.monsters, j.id, j.pos, j.first, j.second, j.online);
      k < |news| && news[k].watcher == j.id && news[k].subject == s
    ensures s in r.players || exists i :: 0 <= i < |r.monsters| && r.monsters[i].0 == s
  {
    var n, m := |j.first|, |r.monsters|;
    if 1 <= k < 1 + n {
      assert j.first[k - 1] == s && j.first[k - 1] in r.players.Keys - {j.id};
    } else if 1 + n <= k < 1 + n + m {
      assert r.monsters[k - 1 - n].0 == s;
    }
  }

  /** What a newcomer's client believes right after its join, whatever went before: the whole field, its
      square, and all it believed when it came in, from earlier stays. */
  lemma NewcomerBelieves(cfg: Config, es: seq<FieldEvent>, e: FieldEvent, s: Id)
    requires cfg.Valid() && PossibleRun(cfg, EMPTY_FIELD, es) && TidyRun(cfg, EMPTY_FIELD, es)
    requires var f := AfterAll(cfg, EMPTY_FIELD, es);
      e.PlayerJoins? && Possible(f, e) && Tidy(cfg, f, e) && e.id !in f.gone && s != e.id
    ensures var f := AfterAll(cfg, EMPTY_FIELD, es);
      (e.id, s) in After(cfg, f, e).believed <==>
        InField(f, s) || InSquare(cfg, After(cfg, f, e).w, e.id, s) || (e.id, s) in f.believed
  {
    var f := AfterAll(cfg, EMPTY_FIELD, es);
    assert Inv(cfg, NOTHING);
    RunInStep(cfg, EMPTY_FIELD, es);
    RunAccounts(cfg, EMPTY_FIELD, es, e.id, s);
    JoinBelieves(cfg, f, e, s);
  }

  lemma JoinBelieves(cfg: Config, f: Field, e: FieldEvent, s: Id)
    requires InStep(cfg, f) && e.PlayerJoins? && Possible(f, e) && Tidy(cfg, f, e) && e.id !in f.gone && s != e.id
    requires Accounted(f, e.id, s)
    ensures (e.id, s) in After(cfg, f, e).believed <==>
      InField(f, s) || InSquare(cfg, After(cfg, f, e).w, e.id, s) || (e.id, s) in f.believed
  {
    var op, p := Add(e.id, true, Spot(e.pos)), (e.id, s);
    NewsToNewcomer(f, e, s);
    AfterInStep(cfg, f, e);
    StepExplains(cfg, f.w, op, f.believed, f.standing, e.id, s);
    AddedShows(cfg, f.w.(seen := f.believed), e.id, true, Spot(e.pos), p);
  }

  /** And every other player whose session is open believes in the newcomer, however far. */
  lemma OthersBelieve(cfg: Config, f: Field, e: FieldEvent, o: Id)
    requires cfg.Valid() && e.PlayerJoins? && Possible(f, e)
    requires o in f.roster.players && o != e.id && o !in f.gone
    ensures (o, e.id) in After(cfg, f, e).believed && (o, e.id) in After(cfg, f, e).standing
  {
    var r, j := f.roster, JoinOf(f, e);
    var news := Intro.JoinSends(r.players, r.monsters, j.id, j.pos, j.first, j.second, j.online);
    assert Intro.Apply(r, j).sends[|r.sends|..] == news;
    var _, tells := Intro.JoinIntroduces(r.players, r.monsters, j.id, j.pos, j.first, j.second, j.online, o);
    assert news[tells].delivered;
  }

  // ---------------------------------------------------------------- a first join

  /** Everyone who ever came in. */
  function Comers(es: seq<FieldEvent>): set<Id> { set e | e in es && e.PlayerJoins? :: e.id }

  /** Only those who came in are on the field, or have anything standing. */
  ghost predicate OnlyComers(f: Field, came: set<Id>, x: Id, s: Id) {
    && f.roster.players.Keys <= came
    && ((x, s) in f.standing ==> x in came)
  }

  lemma NewsToComers(f: Field, e: FieldEvent, p: (Id, Id))
    requires e.PlayerJoins? && Intro.Enabled(f.roster, JoinOf(f, e))
    ensures var sends := Intro.Apply(f.roster, JoinOf(f, e)).sends;
      |f.roster.sends| <= |sends| &&
      (p in Arrived(sends[|f.roster.sends|..]) ==> p.0 in f.roster.players || p.0 == e.id)
  {
    var r, j := f.roster, JoinOf(f, e);
    var news := Intro.JoinSends(r.players, r.monsters, j.id, j.pos, j.first, j.second, j.online);
    assert Intro.Apply(r, j).sends[|r.sends|..] == news;
    if k :| 0 <= k < |news| && news[k].delivered && (news[k].watcher, news[k].subject) == p {
      Intro.JoinSpeaks(r.players, r.monsters, j.id, j.pos, j.first, j.second, j.online, k);
    }
  }

  lemma AfterComers(cfg: Config, f: Field, e: FieldEvent, came: set<Id>, x: Id, s: Id)
    requires InStep(cfg, f) && Possible(f, e) && x != s && Accounted(f, x, s) && OnlyComers(f, came, x, s)
    ensures OnlyComers(After(cfg, f, e), if e.PlayerJoins? then came + {e.id} else came, x, s)
  {
    if e.PlayerJoins? { NewsToComers(f, e, (x, s)); }
  }

  lemma ComersOn(es: seq<FieldEvent>, came: set<Id>)
    requires es != []
    ensures (if es[0].PlayerJoins? then came + {es[0].id} else came) + Comers(es[1..]) == came + Comers(es)
  {
    assert es == [es[0]] + es[1..];
  }

  lemma {:induction false} RunComers(cfg: Config, f: Field, es: seq<FieldEvent>, came: set<Id>, x: Id, s: Id)
    requires InStep(cfg, f) && PossibleRun(cfg, f, es) && TidyRun(cfg, f, es)
    requires x != s && Accounted(f, x, s) && OnlyComers(f, came, x, s)
    ensures OnlyComers(AfterAll(cfg, f, es), came + Comers(es), x, s)
    decreases |es|
  {
    if es != [] {
      var now := if es[0].PlayerJoins? then came + {es[0].id} else came;
      ComersOn(es, came);
      AfterComers(cfg, f, es[0], came, x, s);
      AfterAccounts(cfg, f, es[0], x, s);
      AfterInStep(cfg, f, es[0]);
      RunComers(cfg, After(cfg, f, es[0]), es[1..], now, x, s);
    } else {
      assert came + Comers(es) == came;
    }
  }

  /** A player that comes in for the first time believes nothing before, hence right after exactly the
      whole field and its square. */
  lemma FirstComerBelieves(cfg: Config, es: seq<FieldEvent>, e: FieldEvent, s: Id)
    requires cfg.Valid() && PossibleRun(cfg, EMPTY_FIELD, es) && TidyRun(cfg, EMPTY_FIELD, es)
    requires var f := AfterAll(cfg, EMPTY_FIELD, es);
      e.PlayerJoins? && Possible(f, e) && Tidy(cfg, f, e) && e.id !in f.gone && s != e.id && e.id !in Comers(es)
    ensures var f := AfterAll(cfg, EMPTY_FIELD, es);
      (e.id, s) !in f.believed &&
      ((e.id, s) in After(cfg, f, e).believed <==> InField(f, s) || InSquare(cfg, After(cfg, f, e).w, e.id, s))
  {
    assert Inv(cfg, NOTHING);
    RunInStep(cfg, EMPTY_FIELD, es);
    RunAccounts(cfg, EMPTY_FIELD, es, e.id, s);
    RunComers(cfg, EMPTY_FIELD, es, {}, e.id, s);
    NewcomerBelieves(cfg, es, e, s);
  }

  // ---------------------------------------------------------------- the failing input

  const FIELD_GRID := Config(15.0, 2)

  lemma FarSpawned(spawn: FieldEvent)
    requires spawn == Monsters(Add(1000, false, Pos(450.0, 0.0)), [(1000, Vec2(450.0, 0.0))])
    ensures Possible(EMPTY_FIELD, spawn) && Tidy(FIELD_GRID, EMPTY_FIELD, spawn)
    ensures var f := After(FIELD_GRID, EMPTY_FIELD, spawn);
      && InStep(FIELD_GRID, f) && f.roster == EMPTY_FIELD.roster.(monsters := spawn.monsters) && f.gone == {}
      && f.w.ents == map[1000 := Entity(false, Pos(450.0, 0.0), Coord(30, 0), {})]
  {
    assert Inv(FIELD_GRID, NOTHING);
    AfterInStep(FIELD_GRID, EMPTY_FIELD, spawn);
    AddedEnts(FIELD_GRID, NOTHING, 1000, false, Pos(450.0, 0.0));
    assert SectorOf(FIELD_GRID, Pos(450.0, 0.0)) == Coord(30, 0);
  }

  lemma FarJoined(f: Field, join: FieldEvent)
    requires join == PlayerJoins(1, Vec2(0.0, 0.0), [], []) && InStep(FIELD_GRID, f) && f.gone == {}
    requires f.roster.players == map[] && |f.roster.monsters| == 1 && f.roster.monsters[0].0 == 1000
    requires f.w.ents == map[1000 := Entity(false, Pos(450.0, 0.0), Coord(30, 0), {})]
    ensures Possible(f, join)
    ensures var g := After(FIELD_GRID, f, join);
      (1, 1000) in g.believed && (1, 1000) in g.standing && !InSquare(FIELD_GRID, g.w, 1, 1000)
  {
    assert Possible(f, join);
    NewsToNewcomer(f, join, 1000);
    AddedEnts(FIELD_GRID, f.w, 1, true, Pos(0.0, 0.0));
    assert SectorOf(FIELD_GRID, Pos(0.0, 0.0)) == Coord(0, 0);
  }

  lemma TwoEvents(cfg: Config, f: Field, e: FieldEvent, e': FieldEvent)
    requires cfg.Valid() && Possible(f, e) && Possible(After(cfg, f, e), e')
    ensures PossibleRun(cfg, f, [e, e']) && AfterAll(cfg, f, [e, e']) == After(cfg, After(cfg, f, e), e')
  {
    var g := After(cfg, f, e);
    var h := After(cfg, g, e');
    assert [e, e'][1..] == [e'] && [e'][1..] == [];
    assert PossibleRun(cfg, h, []) && AfterAll(cfg, h, []) == h;
    assert PossibleRun(cfg, g, [e']) && AfterAll(cfg, g, [e']) == h;
  }

  /** That clients believe in their squares only is false: with the field's own sectors of 15 and radius 2,
      a player that joins at the origin believes in a monster 450 away. */
  lemma FarMonster() returns (es: seq<FieldEvent>)
    ensures PossibleRun(FIELD_GRID, EMPTY_FIELD, es)
    ensures var f := AfterAll(FIELD_GRID, EMPTY_FIELD, es);
      (1, 1000) in f.believed && (1, 1000) in f.standing && !InSquare(FIELD_GRID, f.w, 1, 1000)
  {
    var spawn := Monsters(Add(1000, false, Pos(450.0, 0.0)), [(1000, Vec2(450.0, 0.0))]);
    var join := PlayerJoins(1, Vec2(0.0, 0.0), [], []);
    FarSpawned(spawn);
    FarJoined(After(FIELD_GRID, EMPTY_FIELD, spawn), join);
    TwoEvents(FIELD_GRID, EMPTY_FIELD, spawn, join);
    es := [spawn, join];
  }
}
