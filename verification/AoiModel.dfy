/** The interest management of field/AoiWorld.cpp and field/FieldAoiSystem.cpp, on values.

    The plane is cut into square sectors. A player watches the sectors around its own; every change
    is announced to the watchers of the sectors concerned. `seen` is what the grid's announcements alone
    amount to for each client, `listed` what FieldAoiSystem keeps of them as its broadcast lists. The main
    result is that `seen` is exactly the client's square of sectors and what it was shown before it was
    last removed: a removed player is sent nothing, so if it comes back it still believes all that. What
    a client believes is more, because a join also sends Enters that have nothing to do with the grid: see
    FieldViews.
 */
module AoiModel {
  type Id = nat

  datatype Pos = Pos(x: real, y: real)

  datatype Coord = Coord(x: int, y: int)

  datatype Entity = Entity(isPlayer: bool, pos: Pos, sector: Coord, subscribed: set<Coord>)

  datatype Sector = Sector(entities: set<Id>, watchers: set<Id>)

  datatype World = World(
    ents: map<Id, Entity>,
    sectors: map<Coord, Sector>,
    seen: set<(Id, Id)>,      // (watcher, subject)
    listed: set<(Id, Id)>)

  /** Sector side length and view radius, as the constructor leaves them. */
  datatype Config = Config(size: real, radius: int)
  {
    predicate Valid() { size > 0.0 && radius > 0 }
  }

  // ---------------------------------------------------------------- geometry

  function Clamp(v: int): int { if v < 0 then 0 else v }

  function SectorOf(cfg: Config, p: Pos): Coord
    requires cfg.Valid()
  {
    Coord(Clamp((p.x / cfg.size).Floor), Clamp((p.y / cfg.size).Floor))
  }

  predicate Near(cfg: Config, a: Coord, b: Coord) {
    && -cfg.radius <= a.x - b.x <= cfg.radius && -cfg.radius <= a.y - b.y <= cfg.radius
    && b.x >= 0 && b.y >= 0
  }

  function ViewSectors(cfg: Config, c: Coord): (r: set<Coord>)
    ensures forall s :: s in r <==> Near(cfg, c, s)
  {
    set x, y | c.x - cfg.radius <= x <= c.x + cfg.radius && c.y - cfg.radius <= y <= c.y + cfg.radius
      && x >= 0 && y >= 0 :: Coord(x, y)
  }

  /** Visibility is symmetric. */
  lemma NearSymmetric(cfg: Config, a: Coord, b: Coord)
    requires a.x >= 0 && a.y >= 0 && b.x >= 0 && b.y >= 0
    ensures Near(cfg, a, b) <==> Near(cfg, b, a)
  {
  }

  // ---------------------------------------------------------------- announcements

  datatype Kind = Enter | Leave | Move | Snapshot

  /** Something sent to a watcher. */
  datatype Message = Message(watcher: Id, kind: Kind, subject: Id, pos: Pos)

  function SeenAfter(seen: set<(Id, Id)>, m: Message): set<(Id, Id)> {
    if m.kind.Leave? then seen - {(m.watcher, m.subject)} else seen + {(m.watcher, m.subject)}
  }

  function SeenIn(sent: seq<Message>): set<(Id, Id)> {
    if sent == [] then {} else SeenAfter(SeenIn(sent[..|sent| - 1]), sent[|sent| - 1])
  }

  // ---------------------------------------------------------------- sectors

  const EMPTY := Sector({}, {})

  function At(sectors: map<Coord, Sector>, c: Coord): Sector {
    if c in sectors then sectors[c] else EMPTY
  }

  function Entered(sectors: map<Coord, Sector>, id: Id, c: Coord): map<Coord, Sector> {
    var s := At(sectors, c);
    sectors[c := s.(entities := s.entities + {id})]
  }

  function Left(sectors: map<Coord, Sector>, id: Id, c: Coord): map<Coord, Sector> {
    if c in sectors then sectors[c := sectors[c].(entities := sectors[c].entities - {id})] else sectors
  }

  function Unwatched(sectors: map<Coord, Sector>, id: Id, cs: set<Coord>): map<Coord, Sector> {
    map c | c in sectors ::
      if c in cs then sectors[c].(watchers := sectors[c].watchers - {id}) else sectors[c]
  }

  function Watched(sectors: map<Coord, Sector>, id: Id, cs: set<Coord>): map<Coord, Sector> {
    map c | c in sectors.Keys + cs ::
      var s := At(sectors, c);
      if c in cs then s.(watchers := s.watchers + {id}) else s
  }

  /** The known entities other than id that some sector of cs holds. */
  function ResidentsOf(ents: map<Id, Entity>, sectors: map<Coord, Sector>, id: Id, cs: set<Coord>): set<Id> {
    set c, o | c in cs && c in sectors && o in sectors[c].entities && o in ents && o != id :: o
  }

  function Pairs(w: Id, subjects: set<Id>): set<(Id, Id)> { set s | s in subjects :: (w, s) }

  function Watching(watchers: set<Id>, s: Id): set<(Id, Id)> { set w | w in watchers :: (w, s) }

  /** Excluding id 0 excludes nobody. */
  function Others(watchers: set<Id>, id: Id): set<Id> { if id == 0 then watchers else watchers - {id} }

  function Said(w: World, pairs: set<(Id, Id)>): World {
    w.(seen := w.seen + pairs, listed := w.listed + pairs)
  }

  function Unsaid(w: World, pairs: set<(Id, Id)>): World {
    w.(seen := w.seen - pairs, listed := w.listed - pairs)
  }

  // ---------------------------------------------------------------- operations

  /** rebuild_player_subscriptions: leave the sectors out of view, then take on the new ones. */
  function Rebuilt(cfg: Config, w: World, id: Id): World
    requires id in w.ents
  {
    var e := w.ents[id];
    var view := ViewSectors(cfg, e.sector);
    var toRemove, toAdd := e.subscribed - view, view - e.subscribed;
    var hidden := set o | o in ResidentsOf(w.ents, w.sectors, id, toRemove) && w.ents[o].sector !in view;
    var unwatched := Unsaid(w, Pairs(id, hidden)).(sectors := Unwatched(w.sectors, id, toRemove));
    var shown := ResidentsOf(w.ents, unwatched.sectors, id, toAdd);
    Said(unwatched, Pairs(id, shown)).(
      sectors := Watched(unwatched.sectors, id, toAdd), ents := w.ents[id := e.(subscribed := view)])
  }

  /** A new entity is registered and put into its sector. */
  function Registered(cfg: Config, w: World, id: Id, isPlayer: bool, pos: Pos): World
    requires cfg.Valid()
  {
    var e := Entity(isPlayer, pos, SectorOf(cfg, pos), {});
    w.(ents := w.ents[id := e], sectors := Entered(w.sectors, id, e.sector))
  }

  function Resubscribed(cfg: Config, w: World, id: Id): World
    requires id in w.ents
  {
    if w.ents[id].isPlayer then Rebuilt(cfg, w, id) else w
  }

  function Added(cfg: Config, w: World, id: Id, isPlayer: bool, pos: Pos): World
    requires cfg.Valid()
  {
    var placed := Resubscribed(cfg, Registered(cfg, w, id, isPlayer, pos), id);
    Said(placed, Watching(Others(At(placed.sectors, SectorOf(cfg, pos)).watchers, id), id))
  }

  function Removed(w: World, id: Id): World {
    if id !in w.ents then w.(listed := set p | p in w.listed && p.1 != id)
    else
      var e := w.ents[id];
      var told := Unsaid(w, Watching(Others(At(w.sectors, e.sector).watchers, id), id));
      var left := Left(w.sectors, id, e.sector);
      World(w.ents - {id}, if e.isPlayer then Unwatched(left, id, e.subscribed) else left,
            told.seen, set p | p in told.listed && p.1 != id)
  }

  /** An entity changes its position and, if needed, its sector. */
  function Stepped(cfg: Config, w: World, id: Id, pos: Pos): World
    requires cfg.Valid() && id in w.ents
  {
    var e, there := w.ents[id], SectorOf(cfg, pos);
    w.(ents := w.ents[id := e.(pos := pos, sector := there)],
       sectors := if there != e.sector then Entered(Left(w.sectors, id, e.sector), id, there) else w.sectors)
  }

  /** The watchers of the old sector only hear Leave, those of the new sector only hear Enter. */
  function Crossed(w: World, id: Id, from: Coord, to: Coord): World {
    if from == to then w
    else
      var before, after := At(w.sectors, from).watchers, At(w.sectors, to).watchers;
      Said(Unsaid(w, Watching(before - after - {id}, id)), Watching(after - before - {id}, id))
  }

  function Moved(cfg: Config, w: World, id: Id, pos: Pos): World
    requires cfg.Valid()
  {
    if id !in w.ents then w
    else
      var from, to := w.ents[id].sector, SectorOf(cfg, pos);
      var crossed := Crossed(Resubscribed(cfg, Stepped(cfg, w, id, pos), id), id, from, to);
      var told := Said(crossed, Watching(Others(At(crossed.sectors, to).watchers, id), id));
      if w.ents[id].isPlayer then Said(told, {(id, id)}) else told
  }

  // ---------------------------------------------------------------- what holds

  ghost predicate IndexedAt(w: World, c: Coord, i: Id) {
    i in At(w.sectors, c).entities <==> i in w.ents && w.ents[i].sector == c
  }

  ghost predicate WatchesAt(w: World, c: Coord, i: Id) {
    i in At(w.sectors, c).watchers <==> i in w.ents && c in w.ents[i].subscribed
  }

  /** Every sector lists exactly the entities in it and exactly its subscribers. */
  ghost predicate Indexed(w: World) {
    forall c: Coord, i: Id :: IndexedAt(w, c, i) && WatchesAt(w, c, i)
  }

  ghost predicate Subscribed(cfg: Config, w: World) {
    forall i :: i in w.ents ==>
      w.ents[i].subscribed == if w.ents[i].isPlayer then ViewSectors(cfg, w.ents[i].sector) else {}
  }

  ghost predicate Placed(w: World) {
    forall i :: i in w.ents ==> w.ents[i].sector.x >= 0 && w.ents[i].sector.y >= 0
  }

  ghost predicate Subscribes(w: World, x: Id, s: Id) {
    x in w.ents && s in w.ents && w.ents[s].sector in w.ents[x].subscribed
  }

  ghost predicate SeesRight(w: World, x: Id, s: Id) { (x, s) in w.seen <==> Subscribes(w, x, s) }

  ghost predicate Sees(w: World) { forall x, s: Id :: x != s ==> SeesRight(w, x, s) }

  /** What x sees of s is right afterwards, for whoever it was right before. */
  ghost predicate SeesOn(w: World, w': World, x: Id, s: Id) { x != s && SeesRight(w, x, s) ==> SeesRight(w', x, s) }

  ghost predicate Inv(cfg: Config, w: World) {
    cfg.Valid() && Placed(w) && Indexed(w) && Subscribed(cfg, w)
  }

  // ---------------------------------------------------------------- the operations keep it

  ghost predicate EntsIndexed(w: World) { forall c: Coord, i: Id :: IndexedAt(w, c, i) }

  lemma Residents(w: World, id: Id, cs: set<Coord>, o: Id)
    requires EntsIndexed(w)
    ensures o in ResidentsOf(w.ents, w.sectors, id, cs) <==>
      o in w.ents && o != id && w.ents[o].sector in cs
  {
    if o in w.ents { assert IndexedAt(w, w.ents[o].sector, o); }
    forall c | c in cs && c in w.sectors && o in w.sectors[c].entities ensures IndexedAt(w, c, o) {}
  }

  lemma RebuiltIndex(cfg: Config, w: World, id: Id)
    requires Indexed(w) && id in w.ents
    ensures Indexed(Rebuilt(cfg, w, id))
  {
    var w' := Rebuilt(cfg, w, id);
    forall c: Coord, i: Id ensures IndexedAt(w', c, i) && WatchesAt(w', c, i) {
      assert IndexedAt(w, c, i) && WatchesAt(w, c, i);
    }
  }

  lemma RebuiltSees(cfg: Config, w: World, id: Id, x: Id, s: Id)
    requires EntsIndexed(w) && id in w.ents && x != s
    ensures x != id ==> ((x, s) in Rebuilt(cfg, w, id).seen <==> (x, s) in w.seen)
    ensures x == id && SeesRight(w, x, s) ==> SeesRight(Rebuilt(cfg, w, id), x, s)
  {
    if x == id {
      var e := w.ents[id];
      var view := ViewSectors(cfg, e.sector);
      Residents(w, id, e.subscribed - view, s);
      var unwatched := w.(sectors := Unwatched(w.sectors, id, e.subscribed - view));
      assert ResidentsOf(w.ents, unwatched.sectors, id, view - e.subscribed)
          == ResidentsOf(w.ents, w.sectors, id, view - e.subscribed) by {
        assert forall c :: c in w.sectors ==> unwatched.sectors[c].entities == w.sectors[c].entities;
      }
      Residents(w, id, view - e.subscribed, s);
    }
  }

  lemma ResubscribedKeeps(cfg: Config, w: World, id: Id)
    requires Indexed(w) && id in w.ents
    requires !w.ents[id].isPlayer ==> w.ents[id].subscribed == {}
    ensures var w' := Resubscribed(cfg, w, id);
      && Indexed(w') && w'.ents.Keys == w.ents.Keys
      && w'.ents == w.ents[id := w.ents[id].(subscribed := w'.ents[id].subscribed)]
      && w'.ents[id].subscribed == if w.ents[id].isPlayer then ViewSectors(cfg, w.ents[id].sector) else {}
  {
    if w.ents[id].isPlayer { RebuiltIndex(cfg, w, id); }
  }

  lemma ResubscribedSees(cfg: Config, w: World, id: Id, x: Id, s: Id)
    requires Indexed(w) && id in w.ents && x != s
    ensures x != id ==> ((x, s) in Resubscribed(cfg, w, id).seen <==> (x, s) in w.seen)
    ensures x == id && SeesRight(w, x, s) ==> SeesRight(Resubscribed(cfg, w, id), x, s)
  {
    if w.ents[id].isPlayer { RebuiltSees(cfg, w, id, x, s); }
  }

  lemma RegisteredIndex(cfg: Config, w: World, id: Id, isPlayer: bool, pos: Pos)
    requires cfg.Valid() && Indexed(w) && id !in w.ents
    ensures Indexed(Registered(cfg, w, id, isPlayer, pos))
  {
    var w' := Registered(cfg, w, id, isPlayer, pos);
    forall c: Coord, i: Id ensures IndexedAt(w', c, i) && WatchesAt(w', c, i) {
      assert IndexedAt(w, c, i) && WatchesAt(w, c, i);
    }
  }

  /** Adding an entity whose id is not present keeps the indexes, and every view that is right. */
  lemma AddedKeeps(cfg: Config, w: World, id: Id, isPlayer: bool, pos: Pos)
    requires Inv(cfg, w) && id !in w.ents
    ensures var w' := Added(cfg, w, id, isPlayer, pos); Inv(cfg, w') && forall x, s: Id :: SeesOn(w, w', x, s)
  {
    var w1 := Registered(cfg, w, id, isPlayer, pos);
    var w2, w' := Resubscribed(cfg, w1, id), Added(cfg, w, id, isPlayer, pos);
    RegisteredIndex(cfg, w, id, isPlayer, pos);
    ResubscribedKeeps(cfg, w1, id);
    SameIndex(w2, w');
    forall x, s: Id | x != s && SeesRight(w, x, s) ensures SeesRight(w', x, s) {
      ResubscribedSees(cfg, w1, id, x, s);
      assert WatchesAt(w2, SectorOf(cfg, pos), x);
    }
  }

  lemma SameIndex(w: World, w': World)
    requires Indexed(w) && w'.ents == w.ents && w'.sectors == w.sectors
    ensures Indexed(w')
  {
    forall c: Coord, i: Id ensures IndexedAt(w', c, i) && WatchesAt(w', c, i) {
      assert IndexedAt(w, c, i) && WatchesAt(w, c, i);
    }
  }

  lemma RemovedIndex(w: World, id: Id)
    requires Indexed(w) && id in w.ents
    requires !w.ents[id].isPlayer ==> w.ents[id].subscribed == {}
    ensures Indexed(Removed(w, id))
  {
    var w' := Removed(w, id);
    forall c: Coord, i: Id ensures IndexedAt(w', c, i) && WatchesAt(w', c, i) {
      assert IndexedAt(w, c, i) && WatchesAt(w, c, i);
    }
  }

  /** Removing an entity keeps the indexes, and every view that is right except its own. */
  lemma RemovedKeeps(cfg: Config, w: World, id: Id)
    requires Inv(cfg, w)
    ensures var w' := Removed(w, id); Inv(cfg, w') && forall x, s: Id :: x != id ==> SeesOn(w, w', x, s)
  {
    var w' := Removed(w, id);
    if id !in w.ents {
      SameIndex(w, w');
    } else {
      RemovedIndex(w, id);
      forall x, s: Id | x != id && x != s && SeesRight(w, x, s) ensures SeesRight(w', x, s) {
        assert WatchesAt(w, w.ents[id].sector, x);
      }
    }
  }

  lemma SteppedIndex(cfg: Config, w: World, id: Id, pos: Pos)
    requires cfg.Valid() && Indexed(w) && id in w.ents
    ensures Indexed(Stepped(cfg, w, id, pos))
  {
    var w' := Stepped(cfg, w, id, pos);
    forall c: Coord, i: Id ensures IndexedAt(w', c, i) && WatchesAt(w', c, i) {
      assert IndexedAt(w, c, i) && WatchesAt(w, c, i);
    }
  }

  /** The two announcements of a move settle who sees the mover. */
  lemma CrossedSees(w: World, id: Id, from: Coord, to: Coord, x: Id, s: Id)
    requires x != s && Indexed(w)
    requires s == id ==> ((x, id) in w.seen <==> x in At(w.sectors, from).watchers)
    ensures var w' := Crossed(w, id, from, to);
      (x, s) in w'.seen <==> if s == id then x in At(w.sectors, to).watchers else (x, s) in w.seen
  {
  }

  lemma MovedSees(cfg: Config, w: World, id: Id, pos: Pos, x: Id, s: Id)
    requires Inv(cfg, w) && id in w.ents && x != s && SeesRight(w, x, s)
    requires Indexed(Stepped(cfg, w, id, pos)) && Indexed(Resubscribed(cfg, Stepped(cfg, w, id, pos), id))
    ensures SeesRight(Moved(cfg, w, id, pos), x, s)
  {
    var w1 := Stepped(cfg, w, id, pos);
    var w2 := Resubscribed(cfg, w1, id);
    var from, to := w.ents[id].sector, SectorOf(cfg, pos);
    ResubscribedKeeps(cfg, w1, id);
    ResubscribedSees(cfg, w1, id, x, s);
    assert WatchesAt(w2, from, x) && WatchesAt(w2, to, x);
    CrossedSees(w2, id, from, to, x, s);
  }

  lemma MovedKeeps(cfg: Config, w: World, id: Id, pos: Pos)
    requires Inv(cfg, w)
    ensures var w' := Moved(cfg, w, id, pos); Inv(cfg, w') && forall x, s: Id :: SeesOn(w, w', x, s)
  {
    if id in w.ents {
      var w1, w' := Stepped(cfg, w, id, pos), Moved(cfg, w, id, pos);
      SteppedIndex(cfg, w, id, pos);
      ResubscribedKeeps(cfg, w1, id);
      SameIndex(Resubscribed(cfg, w1, id), w');
      forall x, s: Id | x != s && SeesRight(w, x, s) ensures SeesRight(w', x, s) {
        MovedSees(cfg, w, id, pos, x, s);
      }
    }
  }

  // ---------------------------------------------------------------- whole runs

  datatype Op = Add(id: Id, isPlayer: bool, pos: Pos) | Remove(id: Id) | MoveTo(id: Id, pos: Pos)

  function Step(cfg: Config, w: World, op: Op): World
    requires cfg.Valid()
  {
    match op
    case Add(id, isPlayer, pos) => Added(cfg, w, id, isPlayer, pos)
    case Remove(id) => Removed(w, id)
    case MoveTo(id, pos) => Moved(cfg, w, id, pos)
  }

  function Run(cfg: Config, w: World, ops: seq<Op>): World
    requires cfg.Valid()
    decreases |ops|
  {
    if ops == [] then w else Run(cfg, Step(cfg, w, ops[0]), ops[1..])
  }

  /** An entity that is added is absent, or where it already is and no player turned monster. */
  ghost predicate Proper(cfg: Config, w: World, op: Op)
    requires cfg.Valid()
  {
    op.Add? && op.id in w.ents ==>
      w.ents[op.id].sector == SectorOf(cfg, op.pos) && (w.ents[op.id].isPlayer ==> op.isPlayer)
  }

  ghost predicate ProperRun(cfg: Config, w: World, ops: seq<Op>)
    requires cfg.Valid()
    decreases |ops|
  {
    ops == [] || (Proper(cfg, w, ops[0]) && ProperRun(cfg, Step(cfg, w, ops[0]), ops[1..]))
  }

  const NOTHING := World(map[], map[], {}, {})

  lemma StepKeeps(cfg: Config, w: World, op: Op)
    requires Inv(cfg, w) && Proper(cfg, w, op)
    ensures Inv(cfg, Step(cfg, w, op))
    ensures forall x, s: Id :: !(op.Remove? && op.id == x) ==> SeesOn(w, Step(cfg, w, op), x, s)
  {
    match op {
      case Add(id, isPlayer, pos) =>
        if id in w.ents { ReaddedKeeps(cfg, w, id, isPlayer, pos); } else { AddedKeeps(cfg, w, id, isPlayer, pos); }
      case Remove(id) => RemovedKeeps(cfg, w, id);
      case MoveTo(id, pos) => MovedKeeps(cfg, w, id, pos);
    }
  }

  lemma {:induction false} RunKeeps(cfg: Config, w: World, ops: seq<Op>)
    requires Inv(cfg, w) && ProperRun(cfg, w, ops)
    ensures Inv(cfg, Run(cfg, w, ops))
    decreases |ops|
  {
    if ops != [] {
      StepKeeps(cfg, w, ops[0]);
      RunKeeps(cfg, Step(cfg, w, ops[0]), ops[1..]);
    }
  }

  // ---------------------------------------------------------------- adding what is already there

  lemma ReaddedInPlace(cfg: Config, w: World, id: Id, isPlayer: bool, pos: Pos)
    requires Inv(cfg, w) && id in w.ents && w.ents[id].sector == SectorOf(cfg, pos)
    ensures var w1 := Registered(cfg, w, id, isPlayer, pos); w1.sectors == w.sectors && EntsIndexed(w1)
  {
    var here, w1 := SectorOf(cfg, pos), Registered(cfg, w, id, isPlayer, pos);
    assert IndexedAt(w, here, id);
    assert At(w.sectors, here).entities + {id} == At(w.sectors, here).entities;
    assert w1.sectors == w.sectors;
    forall c: Coord, i: Id ensures IndexedAt(w1, c, i) {
      assert IndexedAt(w, c, i);
    }
  }

  /** With no subscriptions yet, a rebuild only takes on: it shows every resident of the view. */
  lemma RebuiltFromNothing(cfg: Config, w: World, id: Id) returns (shown: set<Id>)
    requires id in w.ents && w.ents[id].subscribed == {}
    ensures var view, w' := ViewSectors(cfg, w.ents[id].sector), Rebuilt(cfg, w, id);
      && shown == ResidentsOf(w.ents, w.sectors, id, view)
      && w'.seen == w.seen + Pairs(id, shown) && w'.listed == w.listed + Pairs(id, shown)
      && w'.sectors == Watched(w.sectors, id, view)
  {
    var view := ViewSectors(cfg, w.ents[id].sector);
    assert {} - view == {} && view - {} == view;
    assert ResidentsOf(w.ents, w.sectors, id, {}) == {};
    assert Unwatched(w.sectors, id, {}) == w.sectors;
    shown := ResidentsOf(w.ents, w.sectors, id, view);
  }

  lemma ReaddedAt(cfg: Config, w: World, id: Id, isPlayer: bool, pos: Pos, c: Coord, i: Id)
    requires Inv(cfg, w) && id in w.ents
    requires w.ents[id].sector == SectorOf(cfg, pos) && (w.ents[id].isPlayer ==> isPlayer)
    ensures var w' := Added(cfg, w, id, isPlayer, pos); IndexedAt(w', c, i) && WatchesAt(w', c, i)
  {
    var w1 := Registered(cfg, w, id, isPlayer, pos);
    ReaddedInPlace(cfg, w, id, isPlayer, pos);
    assert IndexedAt(w1, c, i) && WatchesAt(w, c, i);
    if isPlayer { var shown := RebuiltFromNothing(cfg, w1, id); }
  }

  lemma ReaddedIndex(cfg: Config, w: World, id: Id, isPlayer: bool, pos: Pos)
    requires Inv(cfg, w) && id in w.ents
    requires w.ents[id].sector == SectorOf(cfg, pos) && (w.ents[id].isPlayer ==> isPlayer)
    ensures Indexed(Added(cfg, w, id, isPlayer, pos))
  {
    var w' := Added(cfg, w, id, isPlayer, pos);
    ReaddedInPlace(cfg, w, id, isPlayer, pos);
    forall c: Coord, i: Id ensures IndexedAt(w', c, i) && WatchesAt(w', c, i) {
      ReaddedAt(cfg, w, id, isPlayer, pos, c, i);
    }
  }

  lemma ReaddedSees(cfg: Config, w: World, id: Id, isPlayer: bool, pos: Pos, x: Id, s: Id)
    requires Inv(cfg, w) && id in w.ents && x != s && SeesRight(w, x, s)
    requires w.ents[id].sector == SectorOf(cfg, pos) && (w.ents[id].isPlayer ==> isPlayer)
    ensures SeesRight(Added(cfg, w, id, isPlayer, pos), x, s)
  {
    AddedEnts(cfg, w, id, isPlayer, pos);
    ReaddedSeen(cfg, w, id, isPlayer, pos, x, s);
  }

  lemma ReaddedKeeps(cfg: Config, w: World, id: Id, isPlayer: bool, pos: Pos)
    requires Inv(cfg, w) && id in w.ents
    requires w.ents[id].sector == SectorOf(cfg, pos) && (w.ents[id].isPlayer ==> isPlayer)
    ensures var w' := Added(cfg, w, id, isPlayer, pos); Inv(cfg, w') && forall x, s: Id :: SeesOn(w, w', x, s)
  {
    var w' := Added(cfg, w, id, isPlayer, pos);
    ReaddedIndex(cfg, w, id, isPlayer, pos);
    AddedEnts(cfg, w, id, isPlayer, pos);
    forall x, s: Id | x != s && SeesRight(w, x, s) ensures SeesRight(w', x, s) {
      ReaddedSees(cfg, w, id, isPlayer, pos, x, s);
    }
  }

  lemma ReaddedElsewhere(cfg: Config, w: World, id: Id, isPlayer: bool, pos: Pos)
    requires Inv(cfg, w) && id in w.ents && w.ents[id].sector != SectorOf(cfg, pos)
    ensures !Indexed(Added(cfg, w, id, isPlayer, pos))
  {
    var c, w' := w.ents[id].sector, Added(cfg, w, id, isPlayer, pos);
    assert IndexedAt(w, c, id);
    assert id in At(w'.sectors, c).entities;
    assert !IndexedAt(w', c, id);
  }

  lemma ReaddedDemoted(cfg: Config, w: World, id: Id, pos: Pos)
    requires Inv(cfg, w) && id in w.ents && w.ents[id].sector == SectorOf(cfg, pos) && w.ents[id].isPlayer
    ensures !Indexed(Added(cfg, w, id, false, pos))
  {
    var c, w' := w.ents[id].sector, Added(cfg, w, id, false, pos);
    assert WatchesAt(w, c, id);
    assert id in At(w'.sectors, c).watchers;
    assert !WatchesAt(w', c, id);
  }

  /** add_entity does not check for an entity that is already present. The indexes survive such a call
      exactly when it repeats the entity's sector and does not turn a player into a monster. */
  lemma ReaddedExactly(cfg: Config, w: World, id: Id, isPlayer: bool, pos: Pos)
    requires Inv(cfg, w) && id in w.ents
    ensures Inv(cfg, Added(cfg, w, id, isPlayer, pos)) <==>
      w.ents[id].sector == SectorOf(cfg, pos) && (w.ents[id].isPlayer ==> isPlayer)
  {
    if w.ents[id].sector != SectorOf(cfg, pos) {
      ReaddedElsewhere(cfg, w, id, isPlayer, pos);
    } else if w.ents[id].isPlayer && !isPlayer {
      ReaddedDemoted(cfg, w, id, pos);
    } else {
      ReaddedKeeps(cfg, w, id, isPlayer, pos);
    }
  }

  /** What the clients see after such a call: what they saw, and what the call shows them. */
  ghost predicate SeenAfterReadd(cfg: Config, w: World, id: Id, isPlayer: bool, pos: Pos, x: Id, s: Id)
    requires cfg.Valid()
  {
    var here := SectorOf(cfg, pos);
    || (x, s) in w.seen
    || (x == id && isPlayer && s in w.ents && Near(cfg, here, w.ents[s].sector))
    || (s == id && x in w.ents && w.ents[x].isPlayer && Near(cfg, w.ents[x].sector, here))
  }

  /** In a sector index that is right but for id, the residents of a view other than id are right. */
  lemma OtherResidents(w: World, ents: map<Id, Entity>, sectors: map<Coord, Sector>, id: Id, cs: set<Coord>, o: Id)
    requires EntsIndexed(w) && ents.Keys == w.ents.Keys + {id} && o != id
    requires forall i :: i in w.ents && i != id ==> ents[i] == w.ents[i]
    requires forall c :: At(sectors, c).entities - {id} == At(w.sectors, c).entities - {id}
    ensures o in ResidentsOf(ents, sectors, id, cs) <==> o in w.ents && w.ents[o].sector in cs
  {
    if o in w.ents { assert IndexedAt(w, w.ents[o].sector, o); }
    forall c | c in cs && c in sectors && o in sectors[c].entities
      ensures o in w.ents && w.ents[o].sector == c
    {
      assert IndexedAt(w, c, o) && o in At(sectors, c).entities - {id};
    }
    if o in w.ents && w.ents[o].sector in cs {
      assert o in At(w.sectors, w.ents[o].sector).entities - {id};
    }
  }

  lemma ReaddedShows(cfg: Config, w: World, id: Id, isPlayer: bool, pos: Pos, s: Id)
    requires Inv(cfg, w) && id in w.ents && s != id
    ensures var w2 := Resubscribed(cfg, Registered(cfg, w, id, isPlayer, pos), id);
      (id, s) in w2.seen <==> SeenAfterReadd(cfg, w, id, isPlayer, pos, id, s)
  {
    var w1 := Registered(cfg, w, id, isPlayer, pos);
    if isPlayer {
      var shown := RebuiltFromNothing(cfg, w1, id);
      OtherResidents(w, w1.ents, w1.sectors, id, ViewSectors(cfg, SectorOf(cfg, pos)), s);
    }
  }

  lemma ReaddedTells(cfg: Config, w: World, id: Id, isPlayer: bool, pos: Pos, x: Id)
    requires Inv(cfg, w) && id in w.ents && x != id
    ensures (x, id) in Added(cfg, w, id, isPlayer, pos).seen <==> SeenAfterReadd(cfg, w, id, isPlayer, pos, x, id)
  {
    var w1, here := Registered(cfg, w, id, isPlayer, pos), SectorOf(cfg, pos);
    assert WatchesAt(w, here, x);
    if isPlayer { var shown := RebuiltFromNothing(cfg, w1, id); }
  }

  lemma ReaddedSeen(cfg: Config, w: World, id: Id, isPlayer: bool, pos: Pos, x: Id, s: Id)
    requires Inv(cfg, w) && id in w.ents && x != s
    ensures (x, s) in Added(cfg, w, id, isPlayer, pos).seen <==> SeenAfterReadd(cfg, w, id, isPlayer, pos, x, s)
  {
    if x == id {
      ReaddedShows(cfg, w, id, isPlayer, pos, s);
    } else if s == id {
      ReaddedTells(cfg, w, id, isPlayer, pos, x);
    } else if isPlayer {
      var shown := RebuiltFromNothing(cfg, Registered(cfg, w, id, isPlayer, pos), id);
    }
  }

  /** Nothing that the entity saw from where it was, and nobody that saw it there, is left behind. */
  ghost predicate NothingLeftBehind(cfg: Config, w: World, id: Id, isPlayer: bool, pos: Pos, o: Id)
    requires cfg.Valid() && id in w.ents && o in w.ents
  {
    var e, here := w.ents[id], SectorOf(cfg, pos);
    && (e.isPlayer && Near(cfg, e.sector, w.ents[o].sector) ==> isPlayer && Near(cfg, here, w.ents[o].sector))
    && (w.ents[o].isPlayer && Near(cfg, w.ents[o].sector, e.sector) ==> Near(cfg, w.ents[o].sector, here))
  }

  /** After add_entity on a present entity, wherever it puts it, views that were right are right if and
      only if nothing is left behind: the call announces what comes into view, never what goes out of it. */
  lemma ReaddedViewsExactly(cfg: Config, w: World, id: Id, isPlayer: bool, pos: Pos)
    requires Inv(cfg, w) && Sees(w) && id in w.ents
    ensures Sees(Added(cfg, w, id, isPlayer, pos)) <==>
      forall o :: o in w.ents && o != id ==> NothingLeftBehind(cfg, w, id, isPlayer, pos, o)
  {
    var w' := Added(cfg, w, id, isPlayer, pos);
    forall o | o in w.ents && o != id
      ensures SeesRight(w', id, o) && SeesRight(w', o, id) <==> NothingLeftBehind(cfg, w, id, isPlayer, pos, o)
    {
      ReaddedPair(cfg, w, id, isPlayer, pos, o);
    }
    forall x, s: Id | x != s && (x !in w.ents || s !in w.ents || (x != id && s != id)) ensures SeesRight(w', x, s) {
      assert SeesRight(w, x, s);
      ReaddedSeen(cfg, w, id, isPlayer, pos, x, s);
      AddedEnts(cfg, w, id, isPlayer, pos);
    }
  }

  lemma AddedEnts(cfg: Config, w: World, id: Id, isPlayer: bool, pos: Pos)
    requires cfg.Valid()
    ensures var w', here := Added(cfg, w, id, isPlayer, pos), SectorOf(cfg, pos);
      w'.ents == w.ents[id := Entity(isPlayer, pos, here, if isPlayer then ViewSectors(cfg, here) else {})]
  {
  }

  lemma ReaddedPair(cfg: Config, w: World, id: Id, isPlayer: bool, pos: Pos, o: Id)
    requires Inv(cfg, w) && Sees(w) && id in w.ents && o in w.ents && o != id
    ensures var w' := Added(cfg, w, id, isPlayer, pos);
      SeesRight(w', id, o) && SeesRight(w', o, id) <==> NothingLeftBehind(cfg, w, id, isPlayer, pos, o)
  {
    assert SeesRight(w, id, o) && SeesRight(w, o, id);
    AddedEnts(cfg, w, id, isPlayer, pos);
    ReaddedSeen(cfg, w, id, isPlayer, pos, id, o);
    ReaddedSeen(cfg, w, id, isPlayer, pos, o, id);
  }

  // ---------------------------------------------------------------- announcements pair by pair

  /** What an operation's announcements make of whatever a client believed before; they do not depend
      on it. */
  function Told(cfg: Config, w: World, op: Op, b: set<(Id, Id)>): set<(Id, Id)>
    requires cfg.Valid()
  {
    Step(cfg, w.(seen := b), op).seen
  }

  lemma RebuiltAlike(cfg: Config, w: World, id: Id, b: set<(Id, Id)>, p: (Id, Id))
    requires id in w.ents && (p in w.seen ==> p in b)
    ensures p in Resubscribed(cfg, w, id).seen ==> p in Resubscribed(cfg, w.(seen := b), id).seen
    ensures Resubscribed(cfg, w.(seen := b), id).sectors == Resubscribed(cfg, w, id).sectors
    ensures Resubscribed(cfg, w.(seen := b), id).ents == Resubscribed(cfg, w, id).ents
  {
    if w.ents[id].isPlayer {
      var v := w.(seen := b);
      assert Rebuilt(cfg, v, id).sectors == Rebuilt(cfg, w, id).sectors;
    }
  }

  lemma AddedAlike(cfg: Config, w: World, id: Id, isPlayer: bool, pos: Pos, b: set<(Id, Id)>, p: (Id, Id))
    requires cfg.Valid() && (p in w.seen ==> p in b)
    ensures p in Added(cfg, w, id, isPlayer, pos).seen ==> p in Added(cfg, w.(seen := b), id, isPlayer, pos).seen
    ensures Added(cfg, w.(seen := b), id, isPlayer, pos).ents == Added(cfg, w, id, isPlayer, pos).ents
  {
    var w1 := Registered(cfg, w, id, isPlayer, pos);
    assert Registered(cfg, w.(seen := b), id, isPlayer, pos) == w1.(seen := b);
    RebuiltAlike(cfg, w1, id, b, p);
  }

  lemma MovedAlike(cfg: Config, w: World, id: Id, pos: Pos, b: set<(Id, Id)>, p: (Id, Id))
    requires cfg.Valid() && (p in w.seen ==> p in b)
    ensures p in Moved(cfg, w, id, pos).seen ==> p in Moved(cfg, w.(seen := b), id, pos).seen
    ensures Moved(cfg, w.(seen := b), id, pos).ents == Moved(cfg, w, id, pos).ents
  {
    if id in w.ents {
      var w1 := Stepped(cfg, w, id, pos);
      assert Stepped(cfg, w.(seen := b), id, pos) == w1.(seen := b);
      RebuiltAlike(cfg, w1, id, b, p);
    }
  }

  /** What an operation makes of one pair depends on that pair alone, and grows with it. */
  lemma ToldAlike(cfg: Config, w: World, op: Op, a: set<(Id, Id)>, b: set<(Id, Id)>, p: (Id, Id))
    requires cfg.Valid() && (p in a ==> p in b)
    ensures p in Told(cfg, w, op, a) ==> p in Told(cfg, w, op, b)
    ensures Step(cfg, w.(seen := b), op).ents == Step(cfg, w.(seen := a), op).ents
  {
    var v := w.(seen := a);
    assert v.(seen := b) == w.(seen := b);
    match op {
      case Add(id, isPlayer, pos) => AddedAlike(cfg, v, id, isPlayer, pos, b, p);
      case Remove(id) =>
      case MoveTo(id, pos) => MovedAlike(cfg, v, id, pos, b, p);
    }
  }

  // ---------------------------------------------------------------- what stands from before

  /** Of the beliefs k that have nothing to do with the square, those that the operation takes nothing
      back of; and all that a removed entity believed, since it is told nothing of its removal. */
  function Standing(cfg: Config, w: World, op: Op, b: set<(Id, Id)>, k: set<(Id, Id)>): set<(Id, Id)>
    requires cfg.Valid()
  {
    (k * Told(cfg, w, op, k)) + (if op.Remove? then set p | p in Told(cfg, w, op, b) && p.0 == op.id else {})
  }

  /** x believes in s exactly if it watches s's sector or that stands from before. */
  ghost predicate Explains(w: World, b: set<(Id, Id)>, k: set<(Id, Id)>, x: Id, s: Id) {
    (x, s) in b <==> Subscribes(w, x, s) || (x, s) in k
  }

  lemma InvAlike(cfg: Config, w: World, b: set<(Id, Id)>)
    requires Inv(cfg, w)
    ensures Inv(cfg, w.(seen := b))
  {
    SameIndex(w, w.(seen := b));
  }

  /** An operation shows what comes into the square and takes back what leaves it, whatever b. */
  lemma SquareTold(cfg: Config, w: World, op: Op, b: set<(Id, Id)>, x: Id, s: Id)
    requires Inv(cfg, w) && Proper(cfg, w, op) && x != s && !(op.Remove? && op.id == x)
    requires (x, s) in b <==> Subscribes(w, x, s)
    ensures (x, s) in Told(cfg, w, op, b) <==> Subscribes(Step(cfg, w, op), x, s)
  {
    var v := w.(seen := b);
    InvAlike(cfg, w, b);
    StepKeeps(cfg, v, op);
    assert SeesOn(v, Step(cfg, v, op), x, s);
    assert w.(seen := w.seen) == w;
    ToldAlike(cfg, w, op, b, b + w.seen, (x, s));
    ToldAlike(cfg, w, op, w.seen, b + w.seen, (x, s));
  }

  lemma StepExplains(cfg: Config, w: World, op: Op, b: set<(Id, Id)>, k: set<(Id, Id)>, x: Id, s: Id)
    requires Inv(cfg, w) && Proper(cfg, w, op) && x != s && Explains(w, b, k, x, s)
    ensures Explains(Step(cfg, w, op), Told(cfg, w, op, b), Standing(cfg, w, op, b, k), x, s)
  {
    var p := (x, s);
    if p in k {
      ToldAlike(cfg, w, op, k, b, p);
      ToldAlike(cfg, w, op, b, k, p);
    }
    if !(op.Remove? && op.id == x) {
      var square := if Subscribes(w, x, s) then {p} else {};
      SquareTold(cfg, w, op, square, x, s);
      ToldAlike(cfg, w, op, square, b, p);
      if p !in k { ToldAlike(cfg, w, op, b, square, p); }
    }
  }

  /** What stands at the end of a run of what the clients were shown before they were removed. */
  function Kept(cfg: Config, w: World, ops: seq<Op>, k: set<(Id, Id)>): set<(Id, Id)>
    requires cfg.Valid()
    decreases |ops|
  {
    if ops == [] then k else Kept(cfg, Step(cfg, w, ops[0]), ops[1..], Standing(cfg, w, ops[0], w.seen, k))
  }

  lemma {:induction false} RunExplains(cfg: Config, w: World, ops: seq<Op>, k: set<(Id, Id)>, x: Id, s: Id)
    requires Inv(cfg, w) && ProperRun(cfg, w, ops) && x != s && Explains(w, w.seen, k, x, s)
    ensures Explains(Run(cfg, w, ops), Run(cfg, w, ops).seen, Kept(cfg, w, ops, k), x, s)
    decreases |ops|
  {
    if ops != [] {
      assert w.(seen := w.seen) == w;
      StepKeeps(cfg, w, ops[0]);
      StepExplains(cfg, w, ops[0], w.seen, k, x, s);
      RunExplains(cfg, Step(cfg, w, ops[0]), ops[1..], Standing(cfg, w, ops[0], w.seen, k), x, s);
    }
  }

  /** s is in x's square of sectors. */
  ghost predicate InSquare(cfg: Config, w: World, x: Id, s: Id) {
    x in w.ents && s in w.ents && w.ents[x].isPlayer && Near(cfg, w.ents[x].sector, w.ents[s].sector)
  }

  /** In every run, players that come back included: what the grid told a client amounts to exactly the
      entities in its square of sectors, and those it was shown before it was removed that no Leave has
      been sent to it for since. */
  lemma GridShowsExactly(cfg: Config, ops: seq<Op>, x: Id, s: Id)
    requires cfg.Valid() && ProperRun(cfg, NOTHING, ops) && x != s
    ensures var w := Run(cfg, NOTHING, ops);
      (x, s) in w.seen <==> InSquare(cfg, w, x, s) || (x, s) in Kept(cfg, NOTHING, ops, {})
  {
    assert Inv(cfg, NOTHING);
    RunKeeps(cfg, NOTHING, ops);
    RunExplains(cfg, NOTHING, ops, {}, x, s);
  }

  // ---------------------------------------------------------------- a first stay

  predicate AddsPlayer(op: Op) { op.Add? && op.isPlayer }

  /** x is not added again after it was added as a player. */
  ghost predicate Once(ops: seq<Op>, x: Id) {
    forall i, j :: 0 <= i < j < |ops| && AddsPlayer(ops[i]) && ops[i].id == x && ops[j].Add? ==> ops[j].id != x
  }

  predicate Joins(op: Op, x: Id) { AddsPlayer(op) && op.id == x }

  /** `used`: x was added as a player. Nothing stands for x until it is removed, and it does not come back. */
  ghost predicate Newcomer(w: World, k: set<(Id, Id)>, x: Id, s: Id, used: bool) {
    && ((x, s) in k ==> used && x !in w.ents)
    && (x in w.ents && w.ents[x].isPlayer ==> used)
  }

  lemma PlayerAfter(cfg: Config, w: World, op: Op, x: Id)
    requires cfg.Valid()
    ensures var w' := Step(cfg, w, op);
      && (x in w'.ents ==> x in w.ents || (op.Add? && op.id == x))
      && (x in w'.ents && w'.ents[x].isPlayer ==> Joins(op, x) || (x in w.ents && w.ents[x].isPlayer))
      && (op == Remove(x) ==> x !in w'.ents)
  {
  }

  lemma NewcomerStep(cfg: Config, w: World, op: Op, b: set<(Id, Id)>, k: set<(Id, Id)>, x: Id, s: Id, used: bool)
    requires Inv(cfg, w) && Explains(w, b, k, x, s) && Newcomer(w, k, x, s, used)
    requires used && op.Add? ==> op.id != x
    ensures Newcomer(Step(cfg, w, op), Standing(cfg, w, op, b, k), x, s, used || Joins(op, x))
  {
    PlayerAfter(cfg, w, op, x);
  }

  lemma OnceOn(ops: seq<Op>, x: Id, used: bool)
    requires ops != [] && Once(ops, x) && (used ==> forall i :: 0 <= i < |ops| && ops[i].Add? ==> ops[i].id != x)
    ensures Once(ops[1..], x)
    ensures used || Joins(ops[0], x) ==> forall i :: 0 <= i < |ops[1..]| && ops[1..][i].Add? ==> ops[1..][i].id != x
  {
  }

  lemma {:induction false} NewcomerRun(cfg: Config, w: World, ops: seq<Op>, k: set<(Id, Id)>, x: Id, s: Id, used: bool)
    requires Inv(cfg, w) && ProperRun(cfg, w, ops) && Once(ops, x) && x != s
    requires Explains(w, w.seen, k, x, s) && Newcomer(w, k, x, s, used)
    requires used ==> forall i :: 0 <= i < |ops| && ops[i].Add? ==> ops[i].id != x
    ensures x in Run(cfg, w, ops).ents ==> (x, s) !in Kept(cfg, w, ops, k)
    decreases |ops|
  {
    if ops != [] {
      var op := ops[0];
      assert w.(seen := w.seen) == w;
      StepKeeps(cfg, w, op);
      StepExplains(cfg, w, op, w.seen, k, x, s);
      NewcomerStep(cfg, w, op, w.seen, k, x, s, used);
      OnceOn(ops, x, used);
      NewcomerRun(cfg, Step(cfg, w, op), ops[1..], Standing(cfg, w, op, w.seen, k), x, s, used || Joins(op, x));
    }
  }

  /** So a player that is there for the first time is shown exactly the other entities in its square of
      sectors. */
  lemma GridShowsTheSquare(cfg: Config, ops: seq<Op>, x: Id, s: Id)
    requires cfg.Valid() && ProperRun(cfg, NOTHING, ops) && Once(ops, x) && x != s
    ensures var w := Run(cfg, NOTHING, ops); x in w.ents ==> ((x, s) in w.seen <==> InSquare(cfg, w, x, s))
  {
    assert Inv(cfg, NOTHING);
    GridShowsExactly(cfg, ops, x, s);
    NewcomerRun(cfg, NOTHING, ops, {}, x, s, false);
  }

  /** The grid shows two players that are there for the first time to each other, or neither to the other. */
  lemma GridShowsBoth(cfg: Config, ops: seq<Op>, x: Id, s: Id)
    requires cfg.Valid() && ProperRun(cfg, NOTHING, ops) && Once(ops, x) && Once(ops, s)
    ensures var w := Run(cfg, NOTHING, ops);
      x in w.ents && s in w.ents && w.ents[x].isPlayer && w.ents[s].isPlayer ==>
        ((x, s) in w.seen <==> (s, x) in w.seen)
  {
    var w := Run(cfg, NOTHING, ops);
    if x != s && x in w.ents && s in w.ents {
      assert Inv(cfg, NOTHING);
      RunKeeps(cfg, NOTHING, ops);
      GridShowsTheSquare(cfg, ops, x, s);
      GridShowsTheSquare(cfg, ops, s, x);
      NearSymmetric(cfg, w.ents[x].sector, w.ents[s].sector);
    }
  }

  // ---------------------------------------------------------------- the broadcast lists

  /** A removed entity's own list is erased. */
  function Dropped(op: Op, b: set<(Id, Id)>): set<(Id, Id)> {
    if op.Remove? then set p | p in b && p.1 != op.id else b
  }

  lemma ListedAsTold(cfg: Config, w: World, op: Op)
    requires cfg.Valid()
    ensures Step(cfg, w, op).listed == Dropped(op, Told(cfg, w, op, w.listed))
  {
  }

  /** What lingers on the lists at the end of a run of what was shown to clients before they were removed. */
  function Lingering(cfg: Config, w: World, ops: seq<Op>, k: set<(Id, Id)>): set<(Id, Id)>
    requires cfg.Valid()
    decreases |ops|
  {
    if ops == [] then k
    else Lingering(cfg, Step(cfg, w, ops[0]), ops[1..], Dropped(ops[0], Standing(cfg, w, ops[0], w.listed, k)))
  }

  lemma StepLists(cfg: Config, w: World, op: Op, k: set<(Id, Id)>, x: Id, s: Id)
    requires Inv(cfg, w) && Proper(cfg, w, op) && x != s && Explains(w, w.listed, k, x, s)
    ensures var w' := Step(cfg, w, op); Explains(w', w'.listed, Dropped(op, Standing(cfg, w, op, w.listed, k)), x, s)
  {
    ListedAsTold(cfg, w, op);
    StepExplains(cfg, w, op, w.listed, k, x, s);
    PlayerAfter(cfg, w, op, s);
  }

  lemma {:induction false} RunLists(cfg: Config, w: World, ops: seq<Op>, k: set<(Id, Id)>, x: Id, s: Id)
    requires Inv(cfg, w) && ProperRun(cfg, w, ops) && x != s && Explains(w, w.listed, k, x, s)
    ensures Explains(Run(cfg, w, ops), Run(cfg, w, ops).listed, Lingering(cfg, w, ops, k), x, s)
    decreases |ops|
  {
    if ops != [] {
      var op := ops[0];
      StepKeeps(cfg, w, op);
      StepLists(cfg, w, op, k, x, s);
      RunLists(cfg, Step(cfg, w, op), ops[1..], Dropped(op, Standing(cfg, w, op, w.listed, k)), x, s);
    }
  }

  /** In every run, the list that FieldAoiSystem broadcasts to for a subject holds exactly those who have
      it in their square, and those who were on it when they were removed, with no Leave to them and no
      removal of the subject since. */
  lemma BroadcastsExactly(cfg: Config, ops: seq<Op>, x: Id, s: Id)
    requires cfg.Valid() && ProperRun(cfg, NOTHING, ops) && x != s
    ensures var w := Run(cfg, NOTHING, ops);
      (x, s) in w.listed <==> InSquare(cfg, w, x, s) || (x, s) in Lingering(cfg, NOTHING, ops, {})
  {
    assert Inv(cfg, NOTHING);
    RunKeeps(cfg, NOTHING, ops);
    RunLists(cfg, NOTHING, ops, {}, x, s);
  }

  /** Only present entities have a list, whatever was announced. */
  lemma {:induction false} ListsOfPresent(cfg: Config, w: World, ops: seq<Op>, x: Id, s: Id)
    requires Inv(cfg, w) && ProperRun(cfg, w, ops) && ((x, s) in w.listed ==> s in w.ents)
    ensures var w' := Run(cfg, w, ops); (x, s) in w'.listed ==> s in w'.ents
    decreases |ops|
  {
    if ops != [] {
      StepKeeps(cfg, w, ops[0]);
      ListedPresent(cfg, w, ops[0], x, s);
      ListsOfPresent(cfg, Step(cfg, w, ops[0]), ops[1..], x, s);
    }
  }

  lemma ListedPresent(cfg: Config, w: World, op: Op, x: Id, s: Id)
    requires cfg.Valid() && ((x, s) in w.listed ==> s in w.ents)
    ensures var w' := Step(cfg, w, op); (x, s) in w'.listed ==> s in w'.ents
  {
    match op {
      case Add(id, isPlayer, pos) => ResubscribedListed(cfg, Registered(cfg, w, id, isPlayer, pos), id, x, s);
      case Remove(id) =>
      case MoveTo(id, pos) => if id in w.ents { ResubscribedListed(cfg, Stepped(cfg, w, id, pos), id, x, s); }
    }
  }

  lemma ResubscribedListed(cfg: Config, w: World, id: Id, x: Id, s: Id)
    requires id in w.ents && ((x, s) in w.listed ==> s in w.ents)
    ensures var w' := Resubscribed(cfg, w, id); w'.ents.Keys == w.ents.Keys && ((x, s) in w'.listed ==> s in w.ents)
  {
  }

  lemma {:induction false} NewcomerLists(cfg: Config, w: World, ops: seq<Op>, k: set<(Id, Id)>, x: Id, s: Id, used: bool)
    requires Inv(cfg, w) && ProperRun(cfg, w, ops) && Once(ops, x) && x != s
    requires Explains(w, w.listed, k, x, s) && Newcomer(w, k, x, s, used)
    requires used ==> forall i :: 0 <= i < |ops| && ops[i].Add? ==> ops[i].id != x
    ensures x in Run(cfg, w, ops).ents ==> (x, s) !in Lingering(cfg, w, ops, k)
    decreases |ops|
  {
    if ops != [] {
      var op := ops[0];
      StepKeeps(cfg, w, op);
      StepLists(cfg, w, op, k, x, s);
      NewcomerStep(cfg, w, op, w.listed, k, x, s, used);
      OnceOn(ops, x, used);
      NewcomerLists(cfg, Step(cfg, w, op), ops[1..], Dropped(op, Standing(cfg, w, op, w.listed, k)), x, s,
                    used || Joins(op, x));
    }
  }

  /** So a player that is there for the first time is on exactly the lists of the entities in its square. */
  lemma BroadcastsReachViewers(cfg: Config, ops: seq<Op>, x: Id, s: Id)
    requires cfg.Valid() && ProperRun(cfg, NOTHING, ops) && Once(ops, x) && x != s
    ensures var w := Run(cfg, NOTHING, ops); x in w.ents ==> ((x, s) in w.listed <==> InSquare(cfg, w, x, s))
  {
    assert Inv(cfg, NOTHING);
    BroadcastsExactly(cfg, ops, x, s);
    NewcomerLists(cfg, NOTHING, ops, {}, x, s, false);
  }

  // ---------------------------------------------------------------- coming back

  /** A leaving player stays on the list of everything it saw, and believes in it, ... */
  lemma LeaversLinger(cfg: Config, w: World, id: Id, s: Id)
    requires Inv(cfg, w) && id in w.ents && id != s
    ensures var w' := Removed(w, id);
      id !in w'.ents && ((id, s) in w'.listed <==> (id, s) in w.listed) && ((id, s) in w'.seen <==> (id, s) in w.seen)
  {
  }

  /** Adding takes nothing back. */
  lemma AddedShows(cfg: Config, w: World, id: Id, isPlayer: bool, pos: Pos, p: (Id, Id))
    requires cfg.Valid()
    ensures p in w.seen ==> p in Added(cfg, w, id, isPlayer, pos).seen
    ensures p in w.listed ==> p in Added(cfg, w, id, isPlayer, pos).listed
  {
    var w1 := Registered(cfg, w, id, isPlayer, pos);
    if isPlayer { var shown := RebuiltFromNothing(cfg, w1, id); }
  }

  lemma AddedListed(cfg: Config, w: World, id: Id, pos: Pos, s: Id)
    requires Inv(cfg, w) && id !in w.ents && s in w.ents
    ensures var w', near := Added(cfg, w, id, true, pos), Near(cfg, SectorOf(cfg, pos), w.ents[s].sector);
      && ((id, s) in w'.seen <==> (id, s) in w.seen || near)
      && ((id, s) in w'.listed <==> (id, s) in w.listed || near)
  {
    var w1 := Registered(cfg, w, id, true, pos);
    RegisteredIndex(cfg, w, id, true, pos);
    Residents(w1, id, ViewSectors(cfg, SectorOf(cfg, pos)), s);
    var shown := RebuiltFromNothing(cfg, w1, id);
  }

  /** ... so a player that comes back under its id sees, and is broadcast to for, exactly what is in its
      square only if it comes back to where everything that it saw before is in view again. */
  lemma ReturnersExactly(cfg: Config, w: World, id: Id, pos: Pos)
    requires Inv(cfg, w) && id !in w.ents
    ensures var w' := Added(cfg, w, id, true, pos);
      && ((forall s: Id :: s in w.ents ==> ((id, s) in w'.listed <==> InSquare(cfg, w', id, s))) <==>
          (forall s: Id :: s in w.ents && (id, s) in w.listed ==> Near(cfg, SectorOf(cfg, pos), w.ents[s].sector)))
      && ((forall s: Id :: s in w.ents ==> ((id, s) in w'.seen <==> InSquare(cfg, w', id, s))) <==>
          (forall s: Id :: s in w.ents && (id, s) in w.seen ==> Near(cfg, SectorOf(cfg, pos), w.ents[s].sector)))
  {
    AddedEnts(cfg, w, id, true, pos);
    forall s: Id | s in w.ents
      ensures var w', near := Added(cfg, w, id, true, pos), Near(cfg, SectorOf(cfg, pos), w.ents[s].sector);
        && ((id, s) in w'.seen <==> (id, s) in w.seen || near)
        && ((id, s) in w'.listed <==> (id, s) in w.listed || near)
        && (InSquare(cfg, w', id, s) <==> near)
    {
      AddedListed(cfg, w, id, pos, s);
    }
  }

  /** Whoever sees s when it is removed still believes in s when it comes back, although s has gone. */
  lemma ReturnerBelieves(cfg: Config, w: World, x: Id, s: Id, pos: Pos)
    requires Inv(cfg, w) && x in w.ents && x != s && (x, s) in w.seen
    ensures var w' := Added(cfg, Removed(Removed(w, x), s), x, true, pos);
      x in w'.ents && s !in w'.ents && (x, s) in w'.seen
  {
    var alone := Removed(w, x);
    var left := Removed(alone, s);
    RemovedKeeps(cfg, w, x);
    if s in alone.ents { assert WatchesAt(alone, alone.ents[s].sector, x); }
    AddedShows(cfg, left, x, true, pos, (x, s));
    AddedEnts(cfg, left, x, true, pos);
  }

  lemma Met(cfg: Config, pos: Pos)
    requires cfg.Valid()
    ensures var one := Added(cfg, NOTHING, 2, false, pos);
      var both := Added(cfg, one, 1, true, pos);
      one.ents.Keys == {2} && both.ents.Keys == {1, 2} && Inv(cfg, both) && (1, 2) in both.seen
  {
    var one := Added(cfg, NOTHING, 2, false, pos);
    assert Inv(cfg, NOTHING);
    AddedKeeps(cfg, NOTHING, 2, false, pos);
    AddedEnts(cfg, NOTHING, 2, false, pos);
    AddedEnts(cfg, one, 1, true, pos);
    AddedKeeps(cfg, one, 1, true, pos);
    AddedListed(cfg, one, 1, pos, 2);
  }

  /** That the grid shows players their squares only is false of players that come back: 1 comes in where
      2 is, both are removed, and 1 comes back to a field that 2 is not in any more. */
  lemma ReturnerSeesGhost(cfg: Config, pos: Pos) returns (ops: seq<Op>)
    requires cfg.Valid()
    ensures ProperRun(cfg, NOTHING, ops)
    ensures var w := Run(cfg, NOTHING, ops); 1 in w.ents && 2 !in w.ents && (1, 2) in w.seen
  {
    ops := [Add(2, false, pos), Add(1, true, pos), Remove(1), Remove(2), Add(1, true, pos)];
    Met(cfg, pos);
    ReturnerBelieves(cfg, Added(cfg, Added(cfg, NOTHING, 2, false, pos), 1, true, pos), 1, 2, pos);
    FiveOps(cfg, ops[0], ops[1], ops[2], ops[3], ops[4]);
  }

  lemma FiveOps(cfg: Config, o1: Op, o2: Op, o3: Op, o4: Op, o5: Op)
    requires cfg.Valid()
    requires o1.Add? ==> o1.id !in NOTHING.ents
    requires var a := Step(cfg, NOTHING, o1); o2.Add? ==> o2.id !in a.ents
    requires o3.Remove? && o4.Remove?
    requires var d := Step(cfg, Step(cfg, Step(cfg, Step(cfg, NOTHING, o1), o2), o3), o4); o5.Add? ==> o5.id !in d.ents
    ensures var d := Step(cfg, Step(cfg, Step(cfg, Step(cfg, NOTHING, o1), o2), o3), o4);
      ProperRun(cfg, NOTHING, [o1, o2, o3, o4, o5]) && Run(cfg, NOTHING, [o1, o2, o3, o4, o5]) == Step(cfg, d, o5)
  {
    var a := Step(cfg, NOTHING, o1);
    var b := Step(cfg, a, o2);
    var c := Step(cfg, b, o3);
    var d := Step(cfg, c, o4);
    OneMore(cfg, d, o5, []);
    OneMore(cfg, c, o4, [o5]);
    OneMore(cfg, b, o3, [o4, o5]);
    OneMore(cfg, a, o2, [o3, o4, o5]);
    OneMore(cfg, NOTHING, o1, [o2, o3, o4, o5]);
  }

  lemma OneMore(cfg: Config, w: World, op: Op, ops: seq<Op>)
    requires cfg.Valid() && Proper(cfg, w, op) && ProperRun(cfg, Step(cfg, w, op), ops)
    ensures ProperRun(cfg, w, [op] + ops) && Run(cfg, w, [op] + ops) == Run(cfg, Step(cfg, w, op), ops)
  {
    assert ([op] + ops)[1..] == ops;
  }
}
