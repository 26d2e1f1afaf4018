/** What exactly the operations of the sector grid send to whom, and what places clients are told of: the
    announcements of field/AoiWorld.cpp in full, with their kinds and positions. */
module AoiNews {
  import opened AoiModel
  import opened Collections

  // ---------------------------------------------------------------- who is sent what

  /** What was sent since. */
  function New(before: seq<Message>, after: seq<Message>): set<Message>
    requires |before| <= |after|
  {
    set m | m in after[|before|..]
  }

  lemma NewOn(a: seq<Message>, b: seq<Message>, c: seq<Message>)
    requires a <= b <= c
    ensures a <= c && New(a, c) == New(a, b) + New(b, c)
  {
    assert c[|a|..] == b[|a|..] + c[|b|..];
  }

  function Notices(watchers: set<Id>, kind: Kind, subject: Id, pos: Pos): set<Message> {
    set w | w in watchers :: Message(w, kind, subject, pos)
  }

  /** The same kind of event about each of these entities, to one watcher. */
  function Reports(w: Id, kind: Kind, ents: map<Id, Entity>, subjects: set<Id>): set<Message>
    requires subjects <= ents.Keys
  {
    set o | o in subjects :: Message(w, kind, o, ents[o].pos)
  }

  function RebuildNews(cfg: Config, w: World, id: Id): set<Message>
    requires id in w.ents
  {
    var e := w.ents[id];
    var view := ViewSectors(cfg, e.sector);
    var hidden := set o | o in ResidentsOf(w.ents, w.sectors, id, e.subscribed - view) && w.ents[o].sector !in view;
    Reports(id, Leave, w.ents, hidden)
      + Reports(id, Snapshot, w.ents, ResidentsOf(w.ents, w.sectors, id, view - e.subscribed))
  }

  function SubscriptionNews(cfg: Config, w: World, id: Id): set<Message>
    requires id in w.ents
  {
    if w.ents[id].isPlayer then RebuildNews(cfg, w, id) else {}
  }

  function CrossingNews(w: World, id: Id, from: Coord, to: Coord, pos: Pos): set<Message> {
    if from == to then {}
    else
      var before, after := At(w.sectors, from).watchers, At(w.sectors, to).watchers;
      Notices(before - after - {id}, Leave, id, pos) + Notices(after - before - {id}, Enter, id, pos)
  }

  /** All that an operation sends. */
  function Announced(cfg: Config, w: World, op: Op): set<Message>
    requires cfg.Valid()
  {
    match op
    case Add(id, isPlayer, pos) =>
      var w1 := Registered(cfg, w, id, isPlayer, pos);
      var w2 := Resubscribed(cfg, w1, id);
      SubscriptionNews(cfg, w1, id)
        + Notices(Others(At(w2.sectors, SectorOf(cfg, pos)).watchers, id), Enter, id, pos)
    case Remove(id) =>
      if id !in w.ents then {}
      else Notices(Others(At(w.sectors, w.ents[id].sector).watchers, id), Leave, id, w.ents[id].pos)
    case MoveTo(id, pos) =>
      if id !in w.ents then {}
      else
        var w1, to := Stepped(cfg, w, id, pos), SectorOf(cfg, pos);
        var w2 := Resubscribed(cfg, w1, id);
        SubscriptionNews(cfg, w1, id) + CrossingNews(w2, id, w.ents[id].sector, to, pos)
          + Notices(Others(At(w2.sectors, to).watchers, id), Move, id, pos)
          + (if w.ents[id].isPlayer then {Message(id, Move, id, pos)} else {})
  }

  /** x is a player whose square holds the sector. */
  ghost predicate Views(cfg: Config, w: World, x: Id, c: Coord) {
    x in w.ents && w.ents[x].isPlayer && Near(cfg, w.ents[x].sector, c)
  }

  /** The messages that the addition of an entity is to send: Enter, with its place, to every other player
      that has its sector in view, and to a player a Snapshot of every other entity in view, with that
      one's place. */
  ghost predicate DueAdd(cfg: Config, w: World, id: Id, isPlayer: bool, pos: Pos, m: Message)
    requires cfg.Valid()
  {
    var here := SectorOf(cfg, pos);
    || (m.kind.Enter? && m.subject == id && m.pos == pos && m.watcher != id && Views(cfg, w, m.watcher, here))
    || (m.kind.Snapshot? && isPlayer && m.watcher == id && m.subject != id && m.subject in w.ents
        && m.pos == w.ents[m.subject].pos && Near(cfg, here, w.ents[m.subject].sector))
    // an id of 0 is not excluded
    || (id == 0 && isPlayer && m == Message(0, Enter, 0, pos))
  }

  /** Of a removal: Leave, with its last place, to every other player that has it in view. */
  ghost predicate DueRemove(cfg: Config, w: World, id: Id, m: Message) {
    && id in w.ents && m.kind.Leave? && m.subject == id && m.pos == w.ents[id].pos
    && Views(cfg, w, m.watcher, w.ents[id].sector) && (m.watcher != id || id == 0)
  }

  /** Of a move: Move with the new place to every player that now has it in view, itself included; besides,
      Enter to those that had it not, and Leave to those that no more have it; and to a player that moves a
      Snapshot of what comes into its own view and a Leave of what goes out of it. */
  ghost predicate DueMove(cfg: Config, w: World, id: Id, pos: Pos, m: Message)
    requires cfg.Valid()
  {
    id in w.ents &&
    var e, to := w.ents[id], SectorOf(cfg, pos);
    if m.subject == id then
      && m.pos == pos
      && if m.watcher == id then m.kind.Move? && e.isPlayer
         else
           var had, has := Views(cfg, w, m.watcher, e.sector), Views(cfg, w, m.watcher, to);
           match m.kind
           case Move => has
           case Enter => has && !had
           case Leave => had && !has
           case Snapshot => false
    else
      && m.watcher == id && e.isPlayer && m.subject in w.ents && m.pos == w.ents[m.subject].pos
      && var c := w.ents[m.subject].sector;
         match m.kind
         case Snapshot => Near(cfg, to, c) && !Near(cfg, e.sector, c)
         case Leave => !Near(cfg, to, c) && Near(cfg, e.sector, c)
         case _ => false
  }

  ghost predicate Due(cfg: Config, w: World, op: Op, m: Message)
    requires cfg.Valid()
  {
    match op
    case Add(id, isPlayer, pos) => DueAdd(cfg, w, id, isPlayer, pos, m)
    case Remove(id) => DueRemove(cfg, w, id, m)
    case MoveTo(id, pos) => DueMove(cfg, w, id, pos, m)
  }

  lemma RemoveDue(cfg: Config, w: World, id: Id, m: Message)
    requires Inv(cfg, w)
    ensures m in Announced(cfg, w, Remove(id)) <==> DueRemove(cfg, w, id, m)
  {
    if id in w.ents { assert WatchesAt(w, w.ents[id].sector, m.watcher); }
  }

  /** A new player's subscriptions report what is in its square. */
  lemma NewcomerNews(cfg: Config, w: World, id: Id, pos: Pos, m: Message)
    requires Inv(cfg, w)
    ensures m in SubscriptionNews(cfg, Registered(cfg, w, id, true, pos), id) <==>
      && m.kind.Snapshot? && m.watcher == id && m.subject != id && m.subject in w.ents
      && m.pos == w.ents[m.subject].pos && Near(cfg, SectorOf(cfg, pos), w.ents[m.subject].sector)
  {
    var w1, view := Registered(cfg, w, id, true, pos), ViewSectors(cfg, SectorOf(cfg, pos));
    assert view - {} == view && {} - view == {};
    assert ResidentsOf(w1.ents, w1.sectors, id, {}) == {};
    if m.subject != id { OtherResidents(w, w1.ents, w1.sectors, id, view, m.subject); }
  }

  /** Whoever watches the sector of a new entity, other than itself, has it in view. */
  lemma NewcomerWatched(cfg: Config, w: World, id: Id, isPlayer: bool, pos: Pos, x: Id)
    requires Inv(cfg, w) && Proper(cfg, w, Add(id, isPlayer, pos))
    ensures var w2, here := Resubscribed(cfg, Registered(cfg, w, id, isPlayer, pos), id), SectorOf(cfg, pos);
      x in At(w2.sectors, here).watchers <==> if x == id then isPlayer else Views(cfg, w, x, here)
  {
    var w1, here := Registered(cfg, w, id, isPlayer, pos), SectorOf(cfg, pos);
    assert WatchesAt(w, here, x);
    if isPlayer { var shown := RebuiltFromNothing(cfg, w1, id); }
  }

  lemma AddDue(cfg: Config, w: World, id: Id, isPlayer: bool, pos: Pos, m: Message)
    requires Inv(cfg, w) && Proper(cfg, w, Add(id, isPlayer, pos))
    ensures m in Announced(cfg, w, Add(id, isPlayer, pos)) <==> DueAdd(cfg, w, id, isPlayer, pos, m)
  {
    NewcomerWatched(cfg, w, id, isPlayer, pos, m.watcher);
    if isPlayer { NewcomerNews(cfg, w, id, pos, m); }
  }

  lemma RebuildDue(cfg: Config, w: World, id: Id, pos: Pos, m: Message)
    requires Inv(cfg, w) && id in w.ents
    ensures m in SubscriptionNews(cfg, Stepped(cfg, w, id, pos), id) <==> m.subject != id && DueMove(cfg, w, id, pos, m)
  {
    var w1 := Stepped(cfg, w, id, pos);
    SteppedIndex(cfg, w, id, pos);
    var e, view := w1.ents[id], ViewSectors(cfg, w1.ents[id].sector);
    if e.isPlayer {
      Residents(w1, id, e.subscribed - view, m.subject);
      Residents(w1, id, view - e.subscribed, m.subject);
    }
  }

  /** Who watches two sectors after a move has settled the subscriptions. */
  lemma MoverWatched(cfg: Config, w: World, id: Id, pos: Pos, x: Id)
    requires Inv(cfg, w) && id in w.ents
    ensures var w2 := Resubscribed(cfg, Stepped(cfg, w, id, pos), id);
      && (x != id ==> (x in At(w2.sectors, w.ents[id].sector).watchers <==> Views(cfg, w, x, w.ents[id].sector)))
      && (x != id ==> (x in At(w2.sectors, SectorOf(cfg, pos)).watchers <==> Views(cfg, w, x, SectorOf(cfg, pos))))
      && (id in At(w2.sectors, SectorOf(cfg, pos)).watchers <==> w.ents[id].isPlayer)
  {
    var w1 := Stepped(cfg, w, id, pos);
    var w2 := Resubscribed(cfg, w1, id);
    SteppedIndex(cfg, w, id, pos);
    ResubscribedKeeps(cfg, w1, id);
    assert WatchesAt(w2, w.ents[id].sector, x) && WatchesAt(w2, SectorOf(cfg, pos), x) && WatchesAt(w2, SectorOf(cfg, pos), id);
  }

  /** What is said of a mover, given who watches the two sectors. */
  lemma MoverNews(w2: World, id: Id, from: Coord, to: Coord, pos: Pos, isPlayer: bool, m: Message)
    requires id in At(w2.sectors, to).watchers <==> isPlayer
    ensures var had, has := m.watcher in At(w2.sectors, from).watchers, m.watcher in At(w2.sectors, to).watchers;
      m in CrossingNews(w2, id, from, to, pos) + Notices(Others(At(w2.sectors, to).watchers, id), Move, id, pos)
           + (if isPlayer then {Message(id, Move, id, pos)} else {})
      <==>
        && m.subject == id && m.pos == pos
        && if m.watcher == id then m.kind.Move? && isPlayer
           else match m.kind
             case Move => has
             case Enter => has && !had
             case Leave => had && !has
             case Snapshot => false
  {
  }

  lemma MoveDue(cfg: Config, w: World, id: Id, pos: Pos, m: Message)
    requires Inv(cfg, w)
    ensures m in Announced(cfg, w, MoveTo(id, pos)) <==> DueMove(cfg, w, id, pos, m)
  {
    if id in w.ents {
      var w2 := Resubscribed(cfg, Stepped(cfg, w, id, pos), id);
      RebuildDue(cfg, w, id, pos, m);
      MoverWatched(cfg, w, id, pos, m.watcher);
      MoverNews(w2, id, w.ents[id].sector, SectorOf(cfg, pos), pos, w.ents[id].isPlayer, m);
    }
  }

  /** In every state of every run, an operation sends exactly these messages. */
  lemma AnnouncedExactly(cfg: Config, w: World, op: Op, m: Message)
    requires Inv(cfg, w) && Proper(cfg, w, op)
    ensures m in Announced(cfg, w, op) <==> Due(cfg, w, op, m)
  {
    match op {
      case Add(id, isPlayer, pos) => AddDue(cfg, w, id, isPlayer, pos, m);
      case Remove(id) => RemoveDue(cfg, w, id, m);
      case MoveTo(id, pos) => MoveDue(cfg, w, id, pos, m);
    }
  }

  // ---------------------------------------------------------------- where clients believe things to be

  /** The place that x was last told of s, unless it was told Leave since. */
  function LastWord(sent: seq<Message>, x: Id, s: Id): Option<Pos> {
    if sent == [] then None
    else
      var m := sent[|sent| - 1];
      if m.watcher == x && m.subject == s then if m.kind.Leave? then None else Some(m.pos)
      else LastWord(sent[..|sent| - 1], x, s)
  }

  lemma {:induction false} NoNews(before: seq<Message>, after: seq<Message>, x: Id, s: Id)
    requires before <= after
    requires forall m :: m in New(before, after) ==> !(m.watcher == x && m.subject == s)
    ensures LastWord(after, x, s) == LastWord(before, x, s)
    decreases |after|
  {
    if |after| > |before| {
      var shorter := after[..|after| - 1];
      assert after[|before|..] == shorter[|before|..] + [after[|after| - 1]];
      assert after[|after| - 1] in New(before, after);
      NoNews(before, shorter, x, s);
    } else {
      assert after == before;
    }
  }

  lemma {:induction false} GoodNews(before: seq<Message>, after: seq<Message>, x: Id, s: Id, pos: Pos)
    requires before <= after
    requires forall m :: m in New(before, after) && m.watcher == x && m.subject == s ==> !m.kind.Leave? && m.pos == pos
    requires exists m :: m in New(before, after) && m.watcher == x && m.subject == s
    ensures LastWord(after, x, s) == Some(pos)
    decreases |after|
  {
    var shorter, last := after[..|after| - 1], after[|after| - 1];
    assert after[|before|..] == shorter[|before|..] + [last];
    assert New(before, after) == New(before, shorter) + {last};
    if !(last.watcher == x && last.subject == s) { GoodNews(before, shorter, x, s, pos); }
  }

  /** What a client was last told of what is in its square is where that is. */
  ghost predicate TellsPlaces(w: World, sent: seq<Message>, x: Id, s: Id) {
    Subscribes(w, x, s) ==> LastWord(sent, x, s) == Some(w.ents[s].pos)
  }

  /** The logs after each operation of a run: each goes on from the one before by what is announced. */
  ghost predicate Spoken(cfg: Config, w: World, ops: seq<Op>, logs: seq<seq<Message>>)
    requires cfg.Valid()
    decreases |ops|
  {
    && |logs| == |ops| + 1
    && (ops == [] ||
        (logs[0] <= logs[1] && New(logs[0], logs[1]) == Announced(cfg, w, ops[0])
         && Spoken(cfg, Step(cfg, w, ops[0]), ops[1..], logs[1..])))
  }

  lemma EntsAfter(cfg: Config, w: World, op: Op, i: Id)
    requires Inv(cfg, w)
    ensures var w' := Step(cfg, w, op);
      && (i in w'.ents <==> if i == op.id then (op.Add? || (op.MoveTo? && i in w.ents)) else i in w.ents)
      && (i in w'.ents ==>
            && w'.ents[i].pos == (if i == op.id then op.pos else w.ents[i].pos)
            && w'.ents[i].sector == (if i == op.id then SectorOf(cfg, op.pos) else w.ents[i].sector)
            && w'.ents[i].isPlayer == (if i == op.id && op.Add? then op.isPlayer else w.ents[i].isPlayer))
  {
    match op {
      case Add(id, isPlayer, pos) => AddedEnts(cfg, w, id, isPlayer, pos);
      case Remove(id) =>
      case MoveTo(id, pos) =>
        if id in w.ents {
          SteppedIndex(cfg, w, id, pos);
          ResubscribedKeeps(cfg, Stepped(cfg, w, id, pos), id);
        }
    }
  }

  lemma SquareAfter(cfg: Config, w: World, op: Op, x: Id, s: Id)
    requires Inv(cfg, w) && Proper(cfg, w, op)
    ensures Subscribes(w, x, s) <==> InSquare(cfg, w, x, s)
    ensures Subscribes(Step(cfg, w, op), x, s) <==> InSquare(cfg, Step(cfg, w, op), x, s)
  {
    StepKeeps(cfg, w, op);
  }

  /** All that is announced of what x has in its square afterwards is its place; and something is, if it
      was not there before or has moved. */
  lemma NewsAreRight(cfg: Config, w: World, op: Op, x: Id, s: Id, m: Message)
    requires Inv(cfg, w) && Proper(cfg, w, op) && x != s && InSquare(cfg, Step(cfg, w, op), x, s)
    requires m in Announced(cfg, w, op) && m.watcher == x && m.subject == s
    ensures !m.kind.Leave? && m.pos == Step(cfg, w, op).ents[s].pos
  {
    AnnouncedExactly(cfg, w, op, m);
    EntsAfter(cfg, w, op, x);
    EntsAfter(cfg, w, op, s);
  }

  /** What moves or is added is told to whoever has it in its square afterwards. */
  lemma SubjectIsNews(cfg: Config, w: World, op: Op, x: Id) returns (m: Message)
    requires Inv(cfg, w) && Proper(cfg, w, op) && x != op.id && InSquare(cfg, Step(cfg, w, op), x, op.id)
    ensures m.watcher == x && m.subject == op.id && m in Announced(cfg, w, op)
  {
    EntsAfter(cfg, w, op, x);
    EntsAfter(cfg, w, op, op.id);
    assert !op.Remove? && Views(cfg, w, x, SectorOf(cfg, op.pos));
    m := Message(x, if op.Add? then Enter else Move, op.id, op.pos);
    assert Due(cfg, w, op, m);
    AnnouncedExactly(cfg, w, op, m);
  }

  /** And it is told of whatever it did not have in its square before. */
  lemma WatcherHasNews(cfg: Config, w: World, op: Op, s: Id) returns (m: Message)
    requires Inv(cfg, w) && Proper(cfg, w, op) && op.id != s && InSquare(cfg, Step(cfg, w, op), op.id, s)
    ensures m.watcher == op.id && m.subject == s
    ensures m in Announced(cfg, w, op) || (InSquare(cfg, w, op.id, s) && w.ents[s].pos == Step(cfg, w, op).ents[s].pos)
  {
    EntsAfter(cfg, w, op, op.id);
    EntsAfter(cfg, w, op, s);
    m := Message(op.id, Snapshot, s, w.ents[s].pos);
    AnnouncedExactly(cfg, w, op, m);
  }

  lemma NewsAreThere(cfg: Config, w: World, op: Op, x: Id, s: Id) returns (m: Message)
    requires Inv(cfg, w) && Proper(cfg, w, op) && x != s && InSquare(cfg, Step(cfg, w, op), x, s)
    ensures m.watcher == x && m.subject == s
    ensures m in Announced(cfg, w, op) || (InSquare(cfg, w, x, s) && w.ents[s].pos == Step(cfg, w, op).ents[s].pos)
  {
    if op.id == s {
      m := SubjectIsNews(cfg, w, op, x);
    } else if op.id == x {
      m := WatcherHasNews(cfg, w, op, s);
    } else {
      EntsAfter(cfg, w, op, x);
      EntsAfter(cfg, w, op, s);
      m := Message(x, Snapshot, s, w.ents[s].pos);
    }
  }

  lemma StepTells(cfg: Config, w: World, op: Op, before: seq<Message>, after: seq<Message>, x: Id, s: Id)
    requires Inv(cfg, w) && Proper(cfg, w, op) && x != s && TellsPlaces(w, before, x, s)
    requires before <= after && New(before, after) == Announced(cfg, w, op)
    ensures TellsPlaces(Step(cfg, w, op), after, x, s)
  {
    SquareAfter(cfg, w, op, x, s);
    if Subscribes(Step(cfg, w, op), x, s) {
      var pos := Step(cfg, w, op).ents[s].pos;
      var m := NewsAreThere(cfg, w, op, x, s);
      forall n | n in New(before, after) && n.watcher == x && n.subject == s ensures !n.kind.Leave? && n.pos == pos {
        NewsAreRight(cfg, w, op, x, s, n);
      }
      if n :| n in New(before, after) && n.watcher == x && n.subject == s {
        GoodNews(before, after, x, s, pos);
      } else {
        NoNews(before, after, x, s);
      }
    }
  }

  lemma {:induction false} RunTells(cfg: Config, w: World, ops: seq<Op>, logs: seq<seq<Message>>, x: Id, s: Id)
    requires Inv(cfg, w) && ProperRun(cfg, w, ops) && Spoken(cfg, w, ops, logs) && x != s
    requires TellsPlaces(w, logs[0], x, s)
    ensures TellsPlaces(Run(cfg, w, ops), logs[|ops|], x, s)
    decreases |ops|
  {
    if ops != [] {
      StepKeeps(cfg, w, ops[0]);
      StepTells(cfg, w, ops[0], logs[0], logs[1], x, s);
      RunTells(cfg, Step(cfg, w, ops[0]), ops[1..], logs[1..], x, s);
    }
  }

  /** Where an entity is after some operations, if it is anywhere. */
  function Whereabouts(ops: seq<Op>, s: Id): Option<Pos> {
    if ops == [] then None
    else
      var before := Whereabouts(ops[..|ops| - 1], s);
      match ops[|ops| - 1]
      case Add(id, _, pos) => if id == s then Some(pos) else before
      case Remove(id) => if id == s then None else before
      case MoveTo(id, pos) => if id == s && before.Some? then Some(pos) else before
  }

  lemma {:induction false} RunSnoc(cfg: Config, w: World, ops: seq<Op>, op: Op)
    requires cfg.Valid()
    ensures Run(cfg, w, ops + [op]) == Step(cfg, Run(cfg, w, ops), op)
    ensures ProperRun(cfg, w, ops + [op]) ==> ProperRun(cfg, w, ops)
    decreases |ops|
  {
    if ops == [] {
      assert [op][1..] == [] && [] + [op] == [op];
    } else {
      assert (ops + [op])[1..] == ops[1..] + [op];
      RunSnoc(cfg, Step(cfg, w, ops[0]), ops[1..], op);
    }
  }

  /** The grid has every entity where it was last put, in the sector of that place. */
  lemma {:induction false} RunPlaces(cfg: Config, ops: seq<Op>, s: Id)
    requires cfg.Valid() && ProperRun(cfg, NOTHING, ops)
    ensures var w := Run(cfg, NOTHING, ops);
      match Whereabouts(ops, s)
      case None => s !in w.ents
      case Some(pos) => s in w.ents && w.ents[s].pos == pos && w.ents[s].sector == SectorOf(cfg, pos)
    decreases |ops|
  {
    if ops != [] {
      var before, op := ops[..|ops| - 1], ops[|ops| - 1];
      assert ops == before + [op] && Inv(cfg, NOTHING);
      RunSnoc(cfg, NOTHING, before, op);
      RunPlaces(cfg, before, s);
      RunKeeps(cfg, NOTHING, before);
      EntsAfter(cfg, Run(cfg, NOTHING, before), op, s);
    }
  }

  /** In every run: what a client was last told of an entity in its square, and not told to have left since,
      is the place where that entity was last put. */
  lemma ToldWhereItIs(cfg: Config, ops: seq<Op>, logs: seq<seq<Message>>, x: Id, s: Id)
    requires cfg.Valid() && ProperRun(cfg, NOTHING, ops) && x != s
    requires Spoken(cfg, NOTHING, ops, logs) && logs[0] == []
    ensures InSquare(cfg, Run(cfg, NOTHING, ops), x, s) ==>
      Whereabouts(ops, s).Some? && LastWord(logs[|ops|], x, s) == Whereabouts(ops, s)
  {
    assert Inv(cfg, NOTHING);
    RunKeeps(cfg, NOTHING, ops);
    RunTells(cfg, NOTHING, ops, logs, x, s);
    RunPlaces(cfg, ops, s);
  }

  // ---------------------------------------------------------------- sectors and places

  lemma Spread(a: real, b: real, c: real)
    ensures (a - b) * c == a * c - b * c
  {
  }

  lemma NextTimes(a: real, c: real)
    ensures (a + 1.0) * c == a * c + c
  {
  }

  lemma Times(a: real, b: real, c: real)
    requires a <= b && c > 0.0
    ensures a * c <= b * c
  {
  }

  lemma TimesMore(a: real, b: real, c: real)
    requires a < b && c > 0.0
    ensures a * c < b * c
  {
  }

  lemma QuotientPositive(size: real, v: real, q: real)
    requires size > 0.0 && v >= 0.0 && q * size == v
    ensures q >= 0.0
  {
  }

  /** A place is in the sector that its quotient says, which begins at `start`. */
  lemma Sectored(size: real, v: real) returns (n: int, start: real)
    requires size > 0.0 && v >= 0.0
    ensures n == Clamp((v / size).Floor) && start == n as real * size && start <= v < start + size
  {
    var q := v / size;
    assert q * size == v;
    QuotientPositive(size, v, q);
    n := q.Floor;
    start := n as real * size;
    AtMost(n as real, q, size, v);
    Below(q, n as real + 1.0, size, v);
    NextTimes(n as real, size);
  }

  lemma AtMost(n: real, q: real, size: real, v: real)
    requires size > 0.0 && n <= q && q * size == v
    ensures n * size <= v
  {
    Times(n, q, size);
  }

  lemma Below(q: real, n: real, size: real, v: real)
    requires size > 0.0 && q < n && q * size == v
    ensures v < n * size
  {
    TimesMore(q, n, size);
  }

  /** Multiples of the sector side, as the numbers of sides say. */
  lemma Multiples(size: real, m: int, n: int, r: int, from: real, to: real, near: real)
    requires size > 0.0 && from == m as real * size && to == n as real * size && near == r as real * size
    ensures m - n <= r ==> from - to <= near
    ensures m - n > r ==> from - to >= near + size
  {
    var k := m as real - n as real;
    Spread(m as real, n as real, size);
    NextTimes(r as real, size);
    if m - n <= r { Times(k, r as real, size); } else { Times(r as real + 1.0, k, size); }
  }

  lemma AxisOneWay(size: real, r: int, a: real, b: real, m: int, n: int, from: real, to: real, near: real)
    requires from <= a < from + size && to <= b < to + size
    requires m - n <= r ==> from - to <= near
    requires m - n > r ==> from - to >= near + size
    ensures a - b < near ==> m - n <= r
    ensures a - b >= near + size ==> m - n > r
  {
  }

  /** On one axis: sectors at most r apart for places less than r sector sides apart, and further apart for
      places that are r + 1 sides apart or more. */
  lemma AxisNear(size: real, r: int, a: real, b: real, near: real)
    requires size > 0.0 && r > 0 && a >= 0.0 && b >= 0.0 && near == r as real * size
    ensures var d := Clamp((a / size).Floor) - Clamp((b / size).Floor);
      && (-near < a - b < near ==> -r <= d <= r)
      && (a - b >= near + size || b - a >= near + size ==> d > r || d < -r)
  {
    var m, from := Sectored(size, a);
    var n, to := Sectored(size, b);
    Multiples(size, m, n, r, from, to, near);
    Multiples(size, n, m, r, to, from, near);
    AxisOneWay(size, r, a, b, m, n, from, to, near);
    AxisOneWay(size, r, b, a, n, m, to, from, near);
  }

  /** What a square is on the plane, for places that are not negative: everything less than radius sector
      sides away on both axes is in it, nothing that is radius + 1 sides away on one is. */
  lemma SquareOnThePlane(cfg: Config, a: Pos, b: Pos, near: real)
    requires cfg.Valid() && a.x >= 0.0 && a.y >= 0.0 && b.x >= 0.0 && b.y >= 0.0 && near == cfg.radius as real * cfg.size
    ensures -near < a.x - b.x < near && -near < a.y - b.y < near ==> Near(cfg, SectorOf(cfg, a), SectorOf(cfg, b))
    ensures var far := near + cfg.size;
      a.x - b.x >= far || b.x - a.x >= far || a.y - b.y >= far || b.y - a.y >= far ==>
        !Near(cfg, SectorOf(cfg, a), SectorOf(cfg, b))
  {
    AxisNear(cfg.size, cfg.radius, a.x, b.x, near);
    AxisNear(cfg.size, cfg.radius, a.y, b.y, near);
  }

  lemma QuotientNegative(size: real, v: real, q: real)
    requires size > 0.0 && v < 0.0 && q * size == v
    ensures q < 0.0
  {
  }

  lemma AxisClamped(size: real, v: real)
    requires size > 0.0 && v < 0.0
    ensures Clamp((v / size).Floor) == 0 == Clamp((0.0 / size).Floor)
  {
    var q := v / size;
    assert q * size == v;
    QuotientNegative(size, v, q);
    assert 0.0 / size == 0.0;
  }

  /** A place with a negative coordinate is in the sector of the place with 0 instead. */
  lemma OffThePlane(cfg: Config, p: Pos)
    requires cfg.Valid()
    ensures SectorOf(cfg, p) == SectorOf(cfg, Pos(if p.x < 0.0 then 0.0 else p.x, if p.y < 0.0 then 0.0 else p.y))
  {
    if p.x < 0.0 { AxisClamped(cfg.size, p.x); }
    if p.y < 0.0 { AxisClamped(cfg.size, p.y); }
  }
}
