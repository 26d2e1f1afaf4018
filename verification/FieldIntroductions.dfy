/** Who is told of whom when players come into and leave a field: the direct sends of add_player,
    remove_player and on_player_enter_field in worker/fieldWorker.cpp. */
module FieldIntroductions {
  import opened Collections
  import opened FieldPlayers
  import opened Measures

  type Id = nat

  /** A call of send_field_enter: it delivers an Enter command if a session is found for the watcher, and
      otherwise sends nothing. */
  datatype Send = Send(watcher: Id, subject: Id, isMonster: bool, pos: Vec2, delivered: bool)

  /** `joined` is how many calls there were when a player came in, `found` the players for whom a session
      was found then. */
  datatype Roster = Roster(
    players: map<Id, Vec2>,
    monsters: seq<(Id, Vec2)>,
    sends: seq<Send>,
    joined: map<Id, nat>,
    found: map<Id, set<Id>>)

  /** The players are visited in any order, which may differ from one loop to the next. `online` are
      the players with a session. */
  datatype Event =
    | Join(id: Id, pos: Vec2, first: seq<Id>, second: seq<Id>, online: set<Id>)
    | Leave(id: Id)
    | Drift(players: map<Id, Vec2>)
    | Hunt(monsters: seq<(Id, Vec2)>)

  function Tell(watcher: Id, subject: Id, isMonster: bool, pos: Vec2, online: set<Id>): Send {
    Send(watcher, subject, isMonster, pos, watcher in online)
  }

  function TellOfPlayers(id: Id, at: map<Id, Vec2>, others: seq<Id>, online: set<Id>): seq<Send>
    requires forall o :: o in others ==> o in at
  {
    seq(|others|, i requires 0 <= i < |others| => Tell(id, others[i], false, at[others[i]], online))
  }

  function TellOfMonsters(id: Id, monsters: seq<(Id, Vec2)>, online: set<Id>): seq<Send> {
    seq(|monsters|, i requires 0 <= i < |monsters| => Tell(id, monsters[i].0, true, monsters[i].1, online))
  }

  function TellPlayers(others: seq<Id>, id: Id, pos: Vec2, online: set<Id>): seq<Send> {
    seq(|others|, i requires 0 <= i < |others| => Tell(others[i], id, false, pos, online))
  }

  /** The sends of on_player_enter_field. */
  function JoinSends(at: map<Id, Vec2>, monsters: seq<(Id, Vec2)>, id: Id, pos: Vec2,
                     first: seq<Id>, second: seq<Id>, online: set<Id>): seq<Send>
    requires forall o :: o in first ==> o in at
  {
    [Tell(id, id, false, pos, online)]
    + TellOfPlayers(id, at, first, online)
    + TellOfMonsters(id, monsters, online)
    + TellPlayers(second, id, pos, online)
  }

  ghost predicate Enabled(r: Roster, e: Event) {
    match e
    case Join(id, _, first, second, _) =>
      Lists(first, r.players.Keys - {id}) && Lists(second, r.players.Keys - {id})
    case Leave(_) => true
    case Drift(players) => players.Keys == r.players.Keys
    case Hunt(_) => true
  }

  function Apply(r: Roster, e: Event): Roster
    requires Enabled(r, e)
  {
    match e
    case Join(id, pos, first, second, online) =>
      assert forall o :: o in first ==> o in r.players.Keys - {id};
      Roster(r.players[id := pos], r.monsters,
             r.sends + JoinSends(r.players, r.monsters, id, pos, first, second, online),
             r.joined[id := |r.sends|], r.found[id := online])
    case Leave(id) => r.(players := r.players - {id}, joined := r.joined - {id}, found := r.found - {id})
    case Drift(players) => r.(players := players)
    case Hunt(monsters) => r.(monsters := monsters)
  }

  ghost predicate ValidRun(r: Roster, es: seq<Event>)
    decreases |es|
  {
    es == [] || (Enabled(r, es[0]) && ValidRun(Apply(r, es[0]), es[1..]))
  }

  function Run(r: Roster, es: seq<Event>): Roster
    requires ValidRun(r, es)
    decreases |es|
  {
    if es == [] then r else Run(Apply(r, es[0]), es[1..])
  }

  // ---------------------------------------------------------------- one join

  lemma {:induction false} ListsCount(s: seq<Id>, ids: set<Id>)
    requires Lists(s, ids)
    ensures |s| == |ids|
    decreases |s|
  {
    if s != [] {
      ListsBut(s, ids);
      ListsCount(s[..|s| - 1], ids - {s[|s| - 1]});
    }
  }

  /** Where in the sends of a join a given player is told of the newcomer, and the newcomer of it. */
  lemma JoinIntroduces(at: map<Id, Vec2>, monsters: seq<(Id, Vec2)>, id: Id, pos: Vec2,
                       first: seq<Id>, second: seq<Id>, online: set<Id>, o: Id) returns (told: nat, tells: nat)
    requires Lists(first, at.Keys - {id}) && Lists(second, at.Keys - {id}) && o in at && o != id
    ensures forall x :: x in first ==> x in at
    ensures var news := JoinSends(at, monsters, id, pos, first, second, online);
      && told < tells < |news|
      && news[told] == Send(id, o, false, at[o], id in online)
      && news[tells] == Send(o, id, false, pos, o in online)
  {
    assert forall x :: x in first ==> x in at.Keys - {id};
    assert o in at.Keys - {id};
    assert o in first && o in second;
    var i :| 0 <= i < |first| && first[i] == o;
    var j :| 0 <= j < |second| && second[j] == o;
    told, tells := 1 + i, 1 + |first| + |monsters| + j;
  }

  /** The other sends of a join: the newcomer is told of itself first, and of every monster where it is. */
  lemma JoinStarts(at: map<Id, Vec2>, monsters: seq<(Id, Vec2)>, id: Id, pos: Vec2,
                   first: seq<Id>, second: seq<Id>, online: set<Id>)
    requires forall o :: o in first ==> o in at
    ensures var news := JoinSends(at, monsters, id, pos, first, second, online);
      && |news| == 1 + |first| + |monsters| + |second|
      && news[0] == Send(id, id, false, pos, id in online)
      && forall k :: 0 <= k < |monsters| ==>
           news[1 + |first| + k] == Send(id, monsters[k].0, true, monsters[k].1, id in online)
  {
  }

  /** The Enter commands that arrive. */
  function Delivered(sends: seq<Send>): nat {
    if sends == [] then 0 else Delivered(sends[..|sends| - 1]) + (if sends[|sends| - 1].delivered then 1 else 0)
  }

  lemma {:induction false} DeliveredConcat(a: seq<Send>, b: seq<Send>)
    ensures Delivered(a + b) == Delivered(a) + Delivered(b)
    decreases |b|
  {
    if b == [] {
      assert a + b == a;
    } else {
      assert (a + b)[..|a + b| - 1] == a + b[..|b| - 1];
      DeliveredConcat(a, b[..|b| - 1]);
    }
  }

  lemma {:induction false} DeliveredToOne(sends: seq<Send>, id: Id, online: set<Id>)
    requires forall i :: 0 <= i < |sends| ==> sends[i].watcher == id && (sends[i].delivered <==> id in online)
    ensures Delivered(sends) == if id in online then |sends| else 0
    decreases |sends|
  {
    if sends != [] { DeliveredToOne(sends[..|sends| - 1], id, online); }
  }

  lemma ListsBut(s: seq<Id>, ids: set<Id>)
    requires Lists(s, ids) && s != []
    ensures s[|s| - 1] in ids && Lists(s[..|s| - 1], ids - {s[|s| - 1]})
  {
    assert s == s[..|s| - 1] + [s[|s| - 1]];
  }

  lemma OnlineBut(ids: set<Id>, last: Id, online: set<Id>)
    requires last in ids
    ensures |ids * online| == |(ids - {last}) * online| + (if last in online then 1 else 0)
  {
    assert ids * online == (ids - {last}) * online + ({last} * online);
    assert {last} * online == if last in online then {last} else {};
  }

  lemma {:induction false} DeliveredToAll(others: seq<Id>, ids: set<Id>, id: Id, pos: Vec2, online: set<Id>)
    requires Lists(others, ids)
    ensures Delivered(TellPlayers(others, id, pos, online)) == |ids * online|
    decreases |others|
  {
    if others == [] {
      assert ids * online == {};
    } else {
      var before, last := others[..|others| - 1], others[|others| - 1];
      var sends := TellPlayers(others, id, pos, online);
      assert sends[..|sends| - 1] == TellPlayers(before, id, pos, online);
      ListsBut(others, ids);
      DeliveredToAll(before, ids - {last}, id, pos, online);
      OnlineBut(ids, last, online);
    }
  }

  /** A join over n others and m monsters calls send_field_enter 1 + 2n + m times. It delivers 1 + n + m
      Enters to the newcomer if its session is found, and one to each other whose session is found. */
  lemma JoinCount(r: Roster, e: Event)
    requires Enabled(r, e) && e.Join?
    ensures var others, news := r.players.Keys - {e.id}, Apply(r, e).sends[|r.sends|..];
      && |Apply(r, e).sends| >= |r.sends|
      && |news| == 1 + 2 * |others| + |r.monsters|
      && Delivered(news) == (if e.id in e.online then 1 + |others| + |r.monsters| else 0) + |others * e.online|
  {
    var others, news := r.players.Keys - {e.id}, JoinSends(r.players, r.monsters, e.id, e.pos, e.first, e.second, e.online);
    var toOne := [Tell(e.id, e.id, false, e.pos, e.online)] + TellOfPlayers(e.id, r.players, e.first, e.online)
                 + TellOfMonsters(e.id, r.monsters, e.online);
    ListsCount(e.first, others);
    ListsCount(e.second, others);
    assert Apply(r, e).sends[|r.sends|..] == news;
    assert news == toOne + TellPlayers(e.second, e.id, e.pos, e.online);
    DeliveredConcat(toOne, TellPlayers(e.second, e.id, e.pos, e.online));
    DeliveredToOne(toOne, e.id, e.online);
    DeliveredToAll(e.second, others, e.id, e.pos, e.online);
  }

  // ---------------------------------------------------------------- whole runs

  /** A call that is for telling a of player b. */
  predicate About(send: Send, a: Id, b: Id) { send.watcher == a && send.subject == b && !send.isMonster }

  /** An Enter for b was delivered to a no earlier than when the later of the two came in. */
  ghost predicate Introduced(r: Roster, a: Id, b: Id) {
    && a in r.joined && b in r.joined
    && exists k :: r.joined[a] <= k < |r.sends| && r.joined[b] <= k && About(r.sends[k], a, b) && r.sends[k].delivered
  }

  /** Of two players present, a's session was found when the later of them came in. */
  predicate Reachable(r: Roster, a: Id, b: Id)
    requires {a, b} <= r.joined.Keys && {a, b} <= r.found.Keys
  {
    a in r.found[if r.joined[a] < r.joined[b] then b else a]
  }

  /** Since the later of the two came in, a was to be told of b, each time with the same success. */
  ghost predicate Treated(r: Roster, a: Id, b: Id)
    requires {a, b} <= r.joined.Keys && {a, b} <= r.found.Keys
  {
    && (exists k :: r.joined[a] <= k < |r.sends| && r.joined[b] <= k && About(r.sends[k], a, b))
    && (forall k :: r.joined[a] <= k < |r.sends| && r.joined[b] <= k && About(r.sends[k], a, b) ==>
          (r.sends[k].delivered <==> Reachable(r, a, b)))
  }

  ghost predicate Acquainted(r: Roster) {
    && r.joined.Keys == r.players.Keys && r.found.Keys == r.players.Keys
    && (forall a :: a in r.joined ==> r.joined[a] < |r.sends|)
    && (forall a, b :: a in r.players && b in r.players && a != b ==> Treated(r, a, b))
  }

  lemma StillTreated(r: Roster, a: Id, b: Id, r': Roster)
    requires {a, b} <= r.joined.Keys && {a, b} <= r.found.Keys && Treated(r, a, b)
    requires {a, b} <= r'.joined.Keys && {a, b} <= r'.found.Keys
    requires r'.joined[a] == r.joined[a] && r'.joined[b] == r.joined[b]
    requires r'.found[a] == r.found[a] && r'.found[b] == r.found[b]
    requires r.sends <= r'.sends && forall k :: |r.sends| <= k < |r'.sends| ==> !About(r'.sends[k], a, b)
    ensures Treated(r', a, b)
  {
    var k :| r.joined[a] <= k < |r.sends| && r.joined[b] <= k && About(r.sends[k], a, b);
    assert r'.sends[k] == r.sends[k];
    forall j | r'.joined[a] <= j < |r'.sends| && r'.joined[b] <= j && About(r'.sends[j], a, b)
      ensures r'.sends[j].delivered <==> Reachable(r', a, b)
    {
      assert j < |r.sends| && r'.sends[j] == r.sends[j];
    }
  }

  /** Every call of a join has the newcomer on one side, and succeeds as the watcher's session allows. */
  lemma JoinSpeaks(at: map<Id, Vec2>, monsters: seq<(Id, Vec2)>, id: Id, pos: Vec2,
                   first: seq<Id>, second: seq<Id>, online: set<Id>, k: nat)
    requires forall o :: o in first ==> o in at
    requires k < |JoinSends(at, monsters, id, pos, first, second, online)|
    ensures var send := JoinSends(at, monsters, id, pos, first, second, online)[k];
      (send.watcher == id || send.subject == id) && (send.delivered <==> send.watcher in online)
  {
  }

  /** Every call about the two from this join on succeeds exactly if the watcher's session was found. */
  lemma JoinSucceeds(r: Roster, e: Event, a: Id, b: Id, j: nat)
    requires Acquainted(r) && Enabled(r, e) && e.Join? && a != b && (a == e.id || b == e.id)
    requires a in Apply(r, e).players && b in Apply(r, e).players
    requires |r.sends| <= j < |Apply(r, e).sends| && About(Apply(r, e).sends[j], a, b)
    ensures Apply(r, e).sends[j].delivered <==> Reachable(Apply(r, e), a, b)
  {
    var news := JoinSends(r.players, r.monsters, e.id, e.pos, e.first, e.second, e.online);
    assert Apply(r, e).sends[j] == news[j - |r.sends|];
    JoinSpeaks(r.players, r.monsters, e.id, e.pos, e.first, e.second, e.online, j - |r.sends|);
  }

  lemma JoinCalls(r: Roster, e: Event, a: Id, b: Id) returns (k: nat)
    requires Enabled(r, e) && e.Join? && a != b && (a == e.id || b == e.id)
    requires a in Apply(r, e).players && b in Apply(r, e).players
    ensures |r.sends| <= k < |Apply(r, e).sends| && About(Apply(r, e).sends[k], a, b)
  {
    var o := if a == e.id then b else a;
    var told, tells := JoinIntroduces(r.players, r.monsters, e.id, e.pos, e.first, e.second, e.online, o);
    var news := JoinSends(r.players, r.monsters, e.id, e.pos, e.first, e.second, e.online);
    k := |r.sends| + (if a == e.id then told else tells);
    assert Apply(r, e).sends[k] == news[k - |r.sends|];
  }

  lemma JoinTreats(r: Roster, e: Event, a: Id, b: Id)
    requires Acquainted(r) && Enabled(r, e) && e.Join? && a != b && (a == e.id || b == e.id)
    requires a in Apply(r, e).players && b in Apply(r, e).players
    ensures Treated(Apply(r, e), a, b)
  {
    var r' := Apply(r, e);
    var k := JoinCalls(r, e, a, b);
    forall j | r'.joined[a] <= j < |r'.sends| && r'.joined[b] <= j && About(r'.sends[j], a, b)
      ensures r'.sends[j].delivered <==> Reachable(r', a, b)
    {
      JoinSucceeds(r, e, a, b, j);
    }
  }

  lemma ApplyAcquaints(r: Roster, e: Event)
    requires Acquainted(r) && Enabled(r, e)
    ensures Acquainted(Apply(r, e))
  {
    var r' := Apply(r, e);
    forall a, b | a in r'.players && b in r'.players && a != b ensures Treated(r', a, b) {
      if e.Join? && (a == e.id || b == e.id) {
        JoinTreats(r, e, a, b);
      } else {
        assert Treated(r, a, b);
        forall k | |r.sends| <= k < |r'.sends| ensures !About(r'.sends[k], a, b) {
          if e.Join? {
            JoinSpeaks(r.players, r.monsters, e.id, e.pos, e.first, e.second, e.online, k - |r.sends|);
          }
        }
        StillTreated(r, a, b, r');
      }
    }
  }

  lemma {:induction false} RunAcquaints(r: Roster, es: seq<Event>)
    requires Acquainted(r) && ValidRun(r, es)
    ensures Acquainted(Run(r, es))
    decreases |es|
  {
    if es != [] {
      ApplyAcquaints(r, es[0]);
      RunAcquaints(Apply(r, es[0]), es[1..]);
    }
  }

  /** After any joins and leaves, an Enter for b was delivered to a at or after the later of their two
      joins if and only if a's session was found at that join: the two are introduced both ways if both
      sessions were. */
  lemma MutualIntroduction(r: Roster, es: seq<Event>, a: Id, b: Id)
    requires r.players == map[] && r.joined == map[] && r.found == map[] && ValidRun(r, es)
    requires a in Run(r, es).players && b in Run(r, es).players && a != b
    ensures var r' := Run(r, es);
      {a, b} <= r'.joined.Keys && {a, b} <= r'.found.Keys && (Introduced(r', a, b) <==> Reachable(r', a, b))
  {
    RunAcquaints(r, es);
    assert Treated(Run(r, es), a, b);
  }
}
