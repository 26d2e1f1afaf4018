/** field/AoiWorld.cpp with the send callback of field/FieldAoiSystem.cpp: the object that keeps the
    sector indexes in place and announces every change, proved against the operations of AoiModel. */
module AoiWorld {
  import opened AoiModel
  import opened AoiNews

  // ---------------------------------------------------------------- pieces of a rebuild

  function Forgotten(ents: map<Id, Entity>, sectors: map<Coord, Sector>, id: Id, cs: set<Coord>, view: set<Coord>): set<Id> {
    set o | o in ResidentsOf(ents, sectors, id, cs) && ents[o].sector !in view
  }

  /** The state of a rebuild when the sectors of cs have been left. */
  function Leaving(w: World, id: Id, cs: set<Coord>, view: set<Coord>): World {
    Unsaid(w, Pairs(id, Forgotten(w.ents, w.sectors, id, cs, view))).(sectors := Unwatched(w.sectors, id, cs))
  }

  /** The state of a rebuild when the sectors of cs have been taken on. */
  function Joining(w: World, id: Id, cs: set<Coord>): World {
    Said(w, Pairs(id, ResidentsOf(w.ents, w.sectors, id, cs))).(sectors := Watched(w.sectors, id, cs))
  }

  lemma LeavingNone(w: World, id: Id, view: set<Coord>)
    ensures Leaving(w, id, {}, view) == w
  {
    assert Forgotten(w.ents, w.sectors, id, {}, view) == {};
    assert Unwatched(w.sectors, id, {}) == w.sectors;
    assert w.seen - Pairs(id, {}) == w.seen && w.listed - Pairs(id, {}) == w.listed;
  }

  lemma JoiningNone(w: World, id: Id)
    ensures Joining(w, id, {}) == w
  {
    assert ResidentsOf(w.ents, w.sectors, id, {}) == {};
    assert Watched(w.sectors, id, {}) == w.sectors;
    assert w.seen + Pairs(id, {}) == w.seen && w.listed + Pairs(id, {}) == w.listed;
  }

  lemma UnsaidTwice(w: World, id: Id, a: set<Id>, b: set<Id>)
    ensures Unsaid(Unsaid(w, Pairs(id, a)), Pairs(id, b)) == Unsaid(w, Pairs(id, a + b))
  {
    assert Pairs(id, a + b) == Pairs(id, a) + Pairs(id, b);
    assert w.seen - Pairs(id, a) - Pairs(id, b) == w.seen - Pairs(id, a + b);
    assert w.listed - Pairs(id, a) - Pairs(id, b) == w.listed - Pairs(id, a + b);
  }

  lemma SaidTwice(w: World, id: Id, a: set<Id>, b: set<Id>)
    ensures Said(Said(w, Pairs(id, a)), Pairs(id, b)) == Said(w, Pairs(id, a + b))
  {
    assert Pairs(id, a + b) == Pairs(id, a) + Pairs(id, b);
    assert w.seen + Pairs(id, a) + Pairs(id, b) == w.seen + Pairs(id, a + b);
    assert w.listed + Pairs(id, a) + Pairs(id, b) == w.listed + Pairs(id, a + b);
  }

  lemma UnwatchedTwice(sectors: map<Coord, Sector>, id: Id, cs: set<Coord>, c: Coord)
    ensures Unwatched(Unwatched(sectors, id, cs), id, {c}) == Unwatched(sectors, id, cs + {c})
  {
    var once, twice := Unwatched(sectors, id, cs), Unwatched(Unwatched(sectors, id, cs), id, {c});
    var both := Unwatched(sectors, id, cs + {c});
    assert twice.Keys == both.Keys;
    forall k | k in sectors ensures twice[k] == both[k] {
      assert sectors[k].watchers - {id} - {id} == sectors[k].watchers - {id};
    }
  }

  lemma LeavingOne(w: World, id: Id, cs: set<Coord>, c: Coord, view: set<Coord>)
    ensures Leaving(Leaving(w, id, cs, view), id, {c}, view) == Leaving(w, id, cs + {c}, view)
  {
    var mid := Unwatched(w.sectors, id, cs);
    UnwatchedTwice(w.sectors, id, cs, c);
    assert Forgotten(w.ents, mid, id, {c}, view) == Forgotten(w.ents, w.sectors, id, {c}, view);
    assert Forgotten(w.ents, w.sectors, id, cs + {c}, view)
        == Forgotten(w.ents, w.sectors, id, cs, view) + Forgotten(w.ents, w.sectors, id, {c}, view);
    UnsaidTwice(w, id, Forgotten(w.ents, w.sectors, id, cs, view), Forgotten(w.ents, w.sectors, id, {c}, view));
  }

  lemma JoiningOne(w: World, id: Id, cs: set<Coord>, c: Coord)
    ensures Joining(Joining(w, id, cs), id, {c}) == Joining(w, id, cs + {c})
  {
    var mid := Watched(w.sectors, id, cs);
    assert Watched(mid, id, {c}) == Watched(w.sectors, id, cs + {c});
    assert ResidentsOf(w.ents, mid, id, {c}) == ResidentsOf(w.ents, w.sectors, id, {c});
    assert ResidentsOf(w.ents, w.sectors, id, cs + {c})
        == ResidentsOf(w.ents, w.sectors, id, cs) + ResidentsOf(w.ents, w.sectors, id, {c});
    SaidTwice(w, id, ResidentsOf(w.ents, w.sectors, id, cs), ResidentsOf(w.ents, w.sectors, id, {c}));
  }

  lemma ReportsOn(log: seq<Message>, before: seq<Message>, sent: seq<Message>, id: Id, kind: Kind,
                  ents: map<Id, Entity>, a: set<Id>, b: set<Id>)
    requires a <= ents.Keys && b <= ents.Keys && log <= before <= sent
    requires New(log, before) == Reports(id, kind, ents, a) && New(before, sent) == Reports(id, kind, ents, b)
    ensures log <= sent && New(log, sent) == Reports(id, kind, ents, a + b)
  {
    NewOn(log, before, sent);
    assert Reports(id, kind, ents, a + b) == Reports(id, kind, ents, a) + Reports(id, kind, ents, b);
  }

  lemma NoReports(log: seq<Message>, id: Id, kind: Kind, ents: map<Id, Entity>)
    ensures New(log, log) == Reports(id, kind, ents, {})
  {
  }

  lemma OneReport(log: seq<Message>, sent: seq<Message>, id: Id, kind: Kind, ents: map<Id, Entity>, o: Id)
    requires o in ents && log <= sent && New(log, sent) == {Message(id, kind, o, ents[o].pos)}
    ensures New(log, sent) == Reports(id, kind, ents, {o})
  {
  }

  lemma ForgottenOn(ents: map<Id, Entity>, sectors: map<Coord, Sector>, id: Id, cs: set<Coord>, c: Coord, view: set<Coord>)
    ensures Forgotten(ents, Unwatched(sectors, id, cs), id, {c}, view) == Forgotten(ents, sectors, id, {c}, view)
    ensures Forgotten(ents, sectors, id, cs + {c}, view)
         == Forgotten(ents, sectors, id, cs, view) + Forgotten(ents, sectors, id, {c}, view)
  {
  }

  lemma SameResidents(ents: map<Id, Entity>, sectors: map<Coord, Sector>, id: Id, cs: set<Coord>, ds: set<Coord>)
    ensures ResidentsOf(ents, Unwatched(sectors, id, cs), id, ds) == ResidentsOf(ents, sectors, id, ds)
  {
  }

  lemma ResidentsOn(ents: map<Id, Entity>, sectors: map<Coord, Sector>, id: Id, cs: set<Coord>, c: Coord)
    ensures ResidentsOf(ents, Watched(sectors, id, cs), id, {c}) == ResidentsOf(ents, sectors, id, {c})
    ensures ResidentsOf(ents, sectors, id, cs + {c}) == ResidentsOf(ents, sectors, id, cs) + ResidentsOf(ents, sectors, id, {c})
  {
  }

  /** What a broadcast has done when it has told these watchers. */
  ghost predicate TellingSoFar(start: World, log: seq<Message>, kind: Kind, subject: Id, pos: Pos, told: set<Id>,
                               view: World, sent: seq<Message>)
  {
    && view == (if kind.Leave? then Unsaid(start, Watching(told, subject)) else Said(start, Watching(told, subject)))
    && log <= sent && New(log, sent) == Notices(told, kind, subject, pos)
  }

  lemma NobodyTold(start: World, log: seq<Message>, kind: Kind, subject: Id, pos: Pos)
    ensures TellingSoFar(start, log, kind, subject, pos, {}, start, log)
  {
    assert Watching({}, subject) == {} && Notices({}, kind, subject, pos) == {};
    assert start.seen + {} == start.seen && start.listed + {} == start.listed;
  }

  lemma OneToldMore(start: World, log: seq<Message>, kind: Kind, subject: Id, pos: Pos, told: set<Id>, w: Id,
                    view: World, before: seq<Message>, view': World, sent: seq<Message>)
    requires TellingSoFar(start, log, kind, subject, pos, told, view, before)
    requires view' == if kind.Leave? then Unsaid(view, {(w, subject)}) else Said(view, {(w, subject)})
    requires before <= sent && New(before, sent) == {Message(w, kind, subject, pos)}
    ensures TellingSoFar(start, log, kind, subject, pos, told + {w}, view', sent)
  {
    NewOn(log, before, sent);
    var pairs := Watching(told, subject);
    assert Watching(told + {w}, subject) == pairs + {(w, subject)};
    assert Notices(told + {w}, kind, subject, pos) == Notices(told, kind, subject, pos) + {Message(w, kind, subject, pos)};
    assert start.seen + pairs + {(w, subject)} == start.seen + (pairs + {(w, subject)});
    assert start.listed + pairs + {(w, subject)} == start.listed + (pairs + {(w, subject)});
    assert start.seen - pairs - {(w, subject)} == start.seen - (pairs + {(w, subject)});
    assert start.listed - pairs - {(w, subject)} == start.listed - (pairs + {(w, subject)});
  }

  function ListedBy(watchers: map<Id, seq<Id>>): set<(Id, Id)> {
    set s, w | s in watchers && w in watchers[s] :: (w, s)
  }

  // ---------------------------------------------------------------- the class

  class AoiWorld {
    const cfg: Config
    var entities: map<Id, Entity>
    var sectors: map<Coord, Sector>
    // what the clients were sent
    var sent: seq<Message>
    // FieldAoiSystem::watchers_
    var watchers: map<Id, seq<Id>>

    ghost predicate Valid()
      reads this
    {
      cfg.Valid() && forall s :: s in watchers ==>
        forall i, j :: 0 <= i < j < |watchers[s]| ==> watchers[s][i] != watchers[s][j]
    }

    ghost function View(): World
      reads this
    {
      World(entities, sectors, SeenIn(sent), ListedBy(watchers))
    }

    constructor (sectorSize: real, viewRadiusSectors: int)
      ensures Valid() && View() == NOTHING
      ensures cfg == Config(if sectorSize > 0.0 then sectorSize else 1.0,
                            if viewRadiusSectors > 0 then viewRadiusSectors else 1)
    {
      cfg := Config(if sectorSize > 0.0 then sectorSize else 1.0,
                    if viewRadiusSectors > 0 then viewRadiusSectors else 1);
      entities, sectors, sent, watchers := map[], map[], [], map[];
    }

    /** One announcement: on the wire, and into the subject's broadcast list. */
    method Send(watcher: Id, kind: Kind, subject: Id, pos: Pos)
      requires Valid()
      modifies this`sent, this`watchers
      ensures Valid()
      ensures sent == old(sent) + [Message(watcher, kind, subject, pos)]
      ensures View() == if kind.Leave? then Unsaid(old(View()), {(watcher, subject)})
                        else Said(old(View()), {(watcher, subject)})
      ensures old(sent) <= sent && New(old(sent), sent) == {Message(watcher, kind, subject, pos)}
    {
      sent := sent + [Message(watcher, kind, subject, pos)];
      assert sent[..|sent| - 1] == old(sent);
      var list := if subject in watchers then watchers[subject] else [];
      if kind.Leave? {
        list := Without(list, watcher);
      } else if watcher !in list {
        list := list + [watcher];
      }
      watchers := watchers[subject := list];
      assert ListedBy(watchers) == if kind.Leave? then ListedBy(old(watchers)) - {(watcher, subject)}
                                   else ListedBy(old(watchers)) + {(watcher, subject)};
    }

    /** Sends the same event to every watcher of a set, in the order of the hash table. */
    method Tell(ws: set<Id>, kind: Kind, subject: Id, pos: Pos)
      requires Valid()
      modifies this`sent, this`watchers
      ensures Valid()
      ensures View() == if kind.Leave? then Unsaid(old(View()), Watching(ws, subject))
                        else Said(old(View()), Watching(ws, subject))
      ensures old(sent) <= sent && New(old(sent), sent) == Notices(ws, kind, subject, pos)
    {
      var left := ws;
      ghost var start, log, told: set<Id> := View(), sent, {};
      NobodyTold(start, log, kind, subject, pos);
      while left != {}
        invariant told <= ws && left == ws - told && Valid() && log <= sent
        invariant TellingSoFar(start, log, kind, subject, pos, told, View(), sent)
      {
        var w :| w in left;
        ghost var view, before := View(), sent;
        Send(w, kind, subject, pos);
        OneToldMore(start, log, kind, subject, pos, told, w, view, before, View(), sent);
        told := told + {w};
        left := left - {w};
      }
      assert told == ws;
    }

    method BroadcastToSectorWatchers(c: Coord, kind: Kind, subject: Id, pos: Pos, excludeId: Id)
      requires Valid()
      modifies this`sent, this`watchers
      ensures Valid()
      ensures var told := Watching(Others(At(sectors, c).watchers, excludeId), subject);
        View() == if kind.Leave? then Unsaid(old(View()), told) else Said(old(View()), told)
      ensures old(sent) <= sent
      ensures New(old(sent), sent) == Notices(Others(At(sectors, c).watchers, excludeId), kind, subject, pos)
    {
      if c !in sectors {
        assert Others({}, excludeId) == {} && Watching({}, subject) == {};
        return;
      }
      Tell(Others(sectors[c].watchers, excludeId), kind, subject, pos);
    }

    method EnterSector(id: Id, c: Coord)
      modifies this`sectors
      ensures sectors == Entered(old(sectors), id, c)
    {
      if c !in sectors { sectors := sectors[c := EMPTY]; }
      sectors := sectors[c := sectors[c].(entities := sectors[c].entities + {id})];
    }

    method LeaveSector(id: Id, c: Coord)
      modifies this`sectors
      ensures sectors == Left(old(sectors), id, c)
    {
      if c !in sectors { return; }
      sectors := sectors[c := sectors[c].(entities := sectors[c].entities - {id})];
    }

    method CollectViewSectors(sector: Coord) returns (out: seq<Coord>)
      requires cfg.Valid()
      ensures (set c | c in out) == ViewSectors(cfg, sector)
    {
      out := [];
      var r := cfg.radius;
      for dy := -r to r + 1
        invariant forall c :: c in out <==> Near(cfg, sector, c) && c.y < sector.y + dy
      {
        for dx := -r to r + 1
          invariant forall c :: c in out <==>
            Near(cfg, sector, c) && (c.y < sector.y + dy || (c.y == sector.y + dy && c.x < sector.x + dx))
        {
          var sc := Coord(sector.x + dx, sector.y + dy);
          if sc.x >= 0 && sc.y >= 0 {
            out := out + [sc];
          }
        }
      }
    }

    /** Tells a player that the residents of a sector it no longer watches are out of view. */
    method ForgetSector(id: Id, c: Coord, view: set<Coord>)
      requires Valid() && c in sectors
      modifies this`sent, this`watchers
      ensures Valid()
      ensures View() == Unsaid(old(View()), Pairs(id, Forgotten(entities, sectors, id, {c}, view)))
      ensures old(sent) <= sent
      ensures New(old(sent), sent) == Reports(id, Leave, entities, Forgotten(entities, sectors, id, {c}, view))
    {
      var left := sectors[c].entities;
      ghost var start, log, gone, done: set<Id> := View(), sent, Forgotten(entities, sectors, id, {c}, view), {};
      assert start == Unsaid(start, Pairs(id, {}));
      NoReports(log, id, Leave, entities);
      while left != {}
        invariant left <= sectors[c].entities && Valid() && done == gone - left && log <= sent
        invariant View() == Unsaid(start, Pairs(id, done))
        invariant New(log, sent) == Reports(id, Leave, entities, done)
      {
        var o :| o in left;
        if o != id && o in entities && entities[o].sector !in view {
          ghost var before := sent;
          Send(id, Leave, o, entities[o].pos);
          assert Pairs(id, {o}) == {(id, o)};
          UnsaidTwice(start, id, done, {o});
          OneReport(before, sent, id, Leave, entities, o);
          ReportsOn(log, before, sent, id, Leave, entities, done, {o});
          done := done + {o};
        }
        left := left - {o};
      }
      assert done == gone;
    }

    /** Shows a player the residents of a sector it starts to watch. */
    method ShowSector(id: Id, c: Coord)
      requires Valid() && c in sectors
      modifies this`sent, this`watchers
      ensures Valid()
      ensures View() == Said(old(View()), Pairs(id, ResidentsOf(entities, sectors, id, {c})))
      ensures old(sent) <= sent
      ensures New(old(sent), sent) == Reports(id, Snapshot, entities, ResidentsOf(entities, sectors, id, {c}))
    {
      var left := sectors[c].entities;
      ghost var start, log, shown, done: set<Id> := View(), sent, ResidentsOf(entities, sectors, id, {c}), {};
      assert start == Said(start, Pairs(id, {}));
      NoReports(log, id, Snapshot, entities);
      while left != {}
        invariant left <= sectors[c].entities && Valid() && done == shown - left && log <= sent
        invariant View() == Said(start, Pairs(id, done))
        invariant New(log, sent) == Reports(id, Snapshot, entities, done)
      {
        var o :| o in left;
        if o != id && o in entities {
          ghost var before := sent;
          Send(id, Snapshot, o, entities[o].pos);
          assert Pairs(id, {o}) == {(id, o)};
          SaidTwice(start, id, done, {o});
          OneReport(before, sent, id, Snapshot, entities, o);
          ReportsOn(log, before, sent, id, Snapshot, entities, done, {o});
          done := done + {o};
        }
        left := left - {o};
      }
      assert done == shown;
    }

    method LeaveOne(id: Id, sc: Coord, view: set<Coord>)
      requires Valid()
      modifies this`sent, this`watchers, this`sectors
      ensures Valid() && View() == Leaving(old(View()), id, {sc}, view)
      ensures old(sent) <= sent
      ensures New(old(sent), sent) == Reports(id, Leave, entities, Forgotten(entities, old(sectors), id, {sc}, view))
    {
      ghost var before := sectors;
      if sc !in sectors {
        assert Unwatched(before, id, {sc}) == sectors;
        assert Forgotten(entities, before, id, {sc}, view) == {};
        assert View() == Unsaid(View(), Pairs(id, {}));
        NoReports(sent, id, Leave, entities);
        return;
      }
      ForgetSector(id, sc, view);
      sectors := sectors[sc := sectors[sc].(watchers := sectors[sc].watchers - {id})];
      assert sectors == Unwatched(before, id, {sc});
    }

    method JoinOne(id: Id, sc: Coord)
      requires Valid()
      modifies this`sent, this`watchers, this`sectors
      ensures Valid() && View() == Joining(old(View()), id, {sc})
      ensures old(sent) <= sent
      ensures New(old(sent), sent) == Reports(id, Snapshot, entities, ResidentsOf(entities, old(sectors), id, {sc}))
    {
      ghost var before := sectors;
      if sc !in sectors { sectors := sectors[sc := EMPTY]; }
      sectors := sectors[sc := sectors[sc].(watchers := sectors[sc].watchers + {id})];
      assert sectors == Watched(before, id, {sc});
      assert ResidentsOf(entities, sectors, id, {sc}) == ResidentsOf(entities, before, id, {sc});
      ShowSector(id, sc);
    }

    method LeaveAll(id: Id, cs: set<Coord>, view: set<Coord>)
      requires Valid()
      modifies this`sent, this`watchers, this`sectors
      ensures Valid() && View() == Leaving(old(View()), id, cs, view)
      ensures old(sent) <= sent
      ensures New(old(sent), sent) == Reports(id, Leave, entities, Forgotten(entities, old(sectors), id, cs, view))
    {
      var left := cs;
      ghost var start, log, done: set<Coord> := View(), sent, {};
      LeavingNone(View(), id, view);
      NoReports(log, id, Leave, entities);
      assert Forgotten(entities, start.sectors, id, {}, view) == {};
      while left != {}
        invariant done <= cs && left == cs - done && Valid() && log <= sent
        invariant View() == Leaving(start, id, done, view)
        invariant New(log, sent) == Reports(id, Leave, entities, Forgotten(entities, start.sectors, id, done, view))
      {
        var sc :| sc in left;
        ghost var before, forgotten := sent, Forgotten(entities, start.sectors, id, done, view);
        LeavingOne(start, id, done, sc, view);
        ForgottenOn(entities, start.sectors, id, done, sc, view);
        LeaveOne(id, sc, view);
        ReportsOn(log, before, sent, id, Leave, entities, forgotten, Forgotten(entities, start.sectors, id, {sc}, view));
        done := done + {sc};
        left := left - {sc};
      }
      assert done == cs;
    }

    method JoinAll(id: Id, cs: set<Coord>)
      requires Valid()
      modifies this`sent, this`watchers, this`sectors
      ensures Valid() && View() == Joining(old(View()), id, cs)
      ensures old(sent) <= sent
      ensures New(old(sent), sent) == Reports(id, Snapshot, entities, ResidentsOf(entities, old(sectors), id, cs))
    {
      var left := cs;
      ghost var start, log, done: set<Coord> := View(), sent, {};
      JoiningNone(View(), id);
      NoReports(log, id, Snapshot, entities);
      assert ResidentsOf(entities, start.sectors, id, {}) == {};
      while left != {}
        invariant done <= cs && left == cs - done && Valid() && log <= sent
        invariant View() == Joining(start, id, done)
        invariant New(log, sent) == Reports(id, Snapshot, entities, ResidentsOf(entities, start.sectors, id, done))
      {
        var sc :| sc in left;
        ghost var before, residents := sent, ResidentsOf(entities, start.sectors, id, done);
        JoiningOne(start, id, done, sc);
        ResidentsOn(entities, start.sectors, id, done, sc);
        JoinOne(id, sc);
        ReportsOn(log, before, sent, id, Snapshot, entities, residents, ResidentsOf(entities, start.sectors, id, {sc}));
        done := done + {sc};
        left := left - {sc};
      }
      assert done == cs;
    }

    method RebuildPlayerSubscriptions(id: Id)
      requires Valid() && id in entities
      modifies this`entities, this`sectors, this`sent, this`watchers
      ensures Valid() && View() == Rebuilt(cfg, old(View()), id)
      ensures old(sent) <= sent && New(old(sent), sent) == RebuildNews(cfg, old(View()), id)
    {
      var e := entities[id];
      var viewSectors := CollectViewSectors(e.sector);
      var newSet := set c | c in viewSectors;
      ghost var log, was := sent, sectors;
      LeaveAll(id, e.subscribed - newSet, newSet);
      ghost var between := sent;
      JoinAll(id, newSet - e.subscribed);
      NewOn(log, between, sent);
      SameResidents(entities, was, id, e.subscribed - newSet, newSet - e.subscribed);
      entities := entities[id := e.(subscribed := newSet)];
    }

    method AddEntity(id: Id, isPlayer: bool, pos: Pos)
      requires Valid()
      modifies this`entities, this`sectors, this`sent, this`watchers
      ensures Valid() && View() == Added(cfg, old(View()), id, isPlayer, pos)
      ensures Announces(cfg, old(View()), Add(id, isPlayer, pos), old(sent), sent)
      ensures id in entities && entities[id].pos == pos && entities[id].isPlayer == isPlayer
    {
      ghost var w, log := View(), sent;
      var sector := SectorOf(cfg, pos);
      entities := entities[id := Entity(isPlayer, pos, sector, {})];
      EnterSector(id, sector);
      NothingNew(log);
      if isPlayer {
        RebuildPlayerSubscriptions(id);
      }
      ghost var between := sent;
      BroadcastToSectorWatchers(sector, Enter, id, pos, id);
      NewOn(log, between, sent);
      SpokenAsDue(cfg, w, Add(id, isPlayer, pos), log, sent);
    }

    method RemoveEntity(id: Id)
      requires Valid()
      modifies this`entities, this`sectors, this`sent, this`watchers
      ensures Valid() && View() == Removed(old(View()), id)
      ensures Announces(cfg, old(View()), Remove(id), old(sent), sent)
      ensures id !in entities && id !in watchers
    {
      ghost var w, log := View(), sent;
      NothingNew(log);
      if id in entities {
        var e := entities[id];
        BroadcastToSectorWatchers(e.sector, Leave, id, e.pos, id);
        LeaveSector(id, e.sector);
        if e.isPlayer {
          UnwatchAll(id, e.subscribed);
        }
        entities := entities - {id};
      }
      // FieldAoiSystem::remove_entity
      ghost var listed := ListedBy(watchers);
      watchers := watchers - {id};
      assert ListedBy(watchers) == set p | p in listed && p.1 != id;
      SpokenAsDue(cfg, w, Remove(id), log, sent);
    }

    method UnwatchAll(id: Id, cs: set<Coord>)
      modifies this`sectors
      ensures sectors == Unwatched(old(sectors), id, cs)
    {
      var left := cs;
      while left != {}
        invariant left <= cs
        invariant sectors == Unwatched(old(sectors), id, cs - left)
      {
        var sc :| sc in left;
        left := left - {sc};
        if sc in sectors {
          sectors := sectors[sc := sectors[sc].(watchers := sectors[sc].watchers - {id})];
        }
      }
      assert cs - left == cs;
    }

    /** The old sector's watchers that are not the new one's hear Leave, and the other way Enter. */
    method TellCrossing(id: Id, from: Coord, to: Coord, pos: Pos)
      requires Valid()
      modifies this`sent, this`watchers
      ensures Valid() && View() == Crossed(old(View()), id, from, to)
      ensures old(sent) <= sent && New(old(sent), sent) == CrossingNews(old(View()), id, from, to, pos)
    {
      NothingNew(sent);
      if from == to { return; }
      ghost var log := sent;
      var before, after := At(sectors, from).watchers, At(sectors, to).watchers;
      Tell(before - after - {id}, Leave, id, pos);
      ghost var between := sent;
      Tell(after - before - {id}, Enter, id, pos);
      NewOn(log, between, sent);
    }

    /** The announcements of a move when the subscriptions are settled. */
    method TellMove(id: Id, from: Coord, to: Coord, pos: Pos, isPlayer: bool)
      requires Valid()
      modifies this`sent, this`watchers
      ensures Valid()
      ensures View() == MoveSaid(old(View()), id, from, to, isPlayer)
      ensures old(sent) <= sent && New(old(sent), sent) == MoveNews(old(View()), id, from, to, pos, isPlayer)
    {
      ghost var log := sent;
      TellCrossing(id, from, to, pos);
      ghost var crossed := sent;
      BroadcastToSectorWatchers(to, Kind.Move, id, pos, id);
      NewOn(log, crossed, sent);
      if isPlayer {
        ghost var told := sent;
        Send(id, Kind.Move, id, pos);
        NewOn(log, told, sent);
      }
    }

    /** Puts an entity elsewhere and settles its subscriptions. */
    method PlaceEntity(id: Id, newPos: Pos)
      requires Valid() && id in entities
      modifies this`entities, this`sectors, this`sent, this`watchers
      ensures Valid() && View() == Resubscribed(cfg, Stepped(cfg, old(View()), id, newPos), id)
      ensures old(sent) <= sent && New(old(sent), sent) == SubscriptionNews(cfg, Stepped(cfg, old(View()), id, newPos), id)
    {
      NothingNew(sent);
      var e := entities[id];
      var oldSector, newSector := e.sector, SectorOf(cfg, newPos);
      entities := entities[id := e.(pos := newPos, sector := newSector)];
      if newSector != oldSector {
        LeaveSector(id, oldSector);
        EnterSector(id, newSector);
      }
      if e.isPlayer {
        RebuildPlayerSubscriptions(id);
      }
    }

    method MoveEntity(id: Id, newPos: Pos)
      requires Valid()
      modifies this`entities, this`sectors, this`sent, this`watchers
      ensures Valid() && View() == Moved(cfg, old(View()), id, newPos)
      ensures Announces(cfg, old(View()), MoveTo(id, newPos), old(sent), sent)
      ensures if id in old(entities) then id in entities && entities[id].pos == newPos
              else entities == old(entities) && sent == old(sent)
    {
      ghost var w, log := View(), sent;
      NothingNew(log);
      if id in entities {
        var e := entities[id];
        PlaceEntity(id, newPos);
        ghost var between := sent;
        TellMove(id, e.sector, SectorOf(cfg, newPos), newPos, e.isPlayer);
        NewOn(log, between, sent);
        MoveInParts(cfg, w, id, newPos);
      }
      SpokenAsDue(cfg, w, MoveTo(id, newPos), log, sent);
    }
  }

  lemma MoveInParts(cfg: Config, w: World, id: Id, pos: Pos)
    requires cfg.Valid() && id in w.ents
    ensures var w1, from, to, isPlayer := Stepped(cfg, w, id, pos), w.ents[id].sector, SectorOf(cfg, pos), w.ents[id].isPlayer;
      var w2 := Resubscribed(cfg, w1, id);
      && Moved(cfg, w, id, pos) == MoveSaid(w2, id, from, to, isPlayer)
      && Announced(cfg, w, MoveTo(id, pos)) == SubscriptionNews(cfg, w1, id) + MoveNews(w2, id, from, to, pos, isPlayer)
  {
  }

  function MoveSaid(w: World, id: Id, from: Coord, to: Coord, isPlayer: bool): World {
    var crossed := Crossed(w, id, from, to);
    var told := Said(crossed, Watching(Others(At(crossed.sectors, to).watchers, id), id));
    if isPlayer then Said(told, {(id, id)}) else told
  }

  function MoveNews(w: World, id: Id, from: Coord, to: Coord, pos: Pos, isPlayer: bool): set<Message> {
    CrossingNews(w, id, from, to, pos) + Notices(Others(At(w.sectors, to).watchers, id), Move, id, pos)
      + (if isPlayer then {Message(id, Move, id, pos)} else {})
  }

  lemma NothingNew(log: seq<Message>)
    ensures New(log, log) == {}
  {
  }

  /** An operation goes on from what was sent by its announcements: in a right state exactly by those that
      are due, of this kind, to this watcher, with this place. */
  ghost predicate Announces(cfg: Config, w: World, op: Op, log: seq<Message>, sent: seq<Message>)
    requires cfg.Valid()
  {
    && log <= sent && New(log, sent) == Announced(cfg, w, op)
    && (Inv(cfg, w) && Proper(cfg, w, op) ==> forall m :: m in New(log, sent) <==> Due(cfg, w, op, m))
  }

  lemma SpokenAsDue(cfg: Config, w: World, op: Op, log: seq<Message>, sent: seq<Message>)
    requires cfg.Valid() && log <= sent && New(log, sent) == Announced(cfg, w, op)
    ensures Announces(cfg, w, op, log, sent)
  {
    if Inv(cfg, w) && Proper(cfg, w, op) {
      forall m ensures m in New(log, sent) <==> Due(cfg, w, op, m) { AnnouncedExactly(cfg, w, op, m); }
    }
  }

  /** vector::erase of the first occurrence, in a list without repetitions. */
  method Without(list: seq<Id>, w: Id) returns (r: seq<Id>)
    requires forall i, j :: 0 <= i < j < |list| ==> list[i] != list[j]
    ensures forall i, j :: 0 <= i < j < |r| ==> r[i] != r[j]
    ensures forall x :: x in r <==> x in list && x != w
  {
    for k := 0 to |list|
      invariant forall i :: 0 <= i < k ==> list[i] != w
    {
      if list[k] == w {
        return list[..k] + list[k + 1..];
      }
    }
    return list;
  }
}
