/** The player registry on values: the two maps of game/PlayerManager.cpp, the session's player id and
    the binding of net/sessionManager.h, as core/handlers/game_auth_logic.cpp uses them. A session is
    known by its address. */
module PlayerRegistry {
  import opened Collections

  type Id = nat
  type Address = nat

  /** `players` says for which session a player was created, `index` is the way back. */
  datatype Reg = Reg(players: map<Id, Address>, index: map<Address, Id>)

  // ---------------------------------------------------------------- operations

  function Created(r: Reg, id: Id, s: Address): Reg { Reg(r.players[id := s], r.index[s := id]) }

  function FoundBySession(r: Reg, s: Address): Option<Id> {
    if s !in r.index then None else if r.index[s] !in r.players then None else Some(r.index[s])
  }

  function RemovedBySession(r: Reg, s: Address): Reg {
    if s !in r.index then r else Reg(r.players - {r.index[s]}, r.index - {s})
  }

  function RemovedById(r: Reg, id: Id): Reg {
    if id !in r.players then r else Reg(r.players - {id}, r.index - {r.players[id]})
  }

  // ---------------------------------------------------------------- soundness

  ghost predicate Leads(r: Reg, s: Address) {
    s in r.index ==> r.index[s] in r.players && r.players[r.index[s]] == s
  }

  /** Every session in the index leads to an existing player that was created for it. */
  ghost predicate Sound(r: Reg) { forall s :: s in r.index ==> Leads(r, s) }

  /** Two sessions never lead to one player. */
  lemma IndexInjective(r: Reg, s: Address, t: Address)
    requires Sound(r) && s in r.index && t in r.index && r.index[s] == r.index[t]
    ensures s == t
  {
    assert Leads(r, s) && Leads(r, t);
  }

  /** A new player leaves the registry sound exactly if no other session led to its id; ids that no
      player has are safe. */
  lemma CreatedExactly(r: Reg, id: Id, s: Address)
    requires Sound(r)
    ensures Sound(Created(r, id, s)) <==> (forall t :: t in r.index && r.index[t] == id ==> t == s)
    ensures id !in r.players ==> Sound(Created(r, id, s))
  {
    var r' := Created(r, id, s);
    forall t | t in r.index ensures Leads(r, t) && (Leads(r', t) <==> (r.index[t] == id ==> t == s)) {
      assert Leads(r, t);
    }
    if Sound(r') {
      forall t | t in r.index && r.index[t] == id ensures t == s { assert Leads(r', t); }
    }
    if forall t :: t in r.index && r.index[t] == id ==> t == s {
      forall t | t in r'.index ensures Leads(r', t) { assert t == s || Leads(r, t); }
    }
  }

  lemma RemovalsKeep(r: Reg, id: Id, s: Address)
    requires Sound(r)
    ensures Sound(RemovedBySession(r, s)) && Sound(RemovedById(r, id))
  {
    var a, b := RemovedBySession(r, s), RemovedById(r, id);
    forall t | t in a.index ensures Leads(a, t) {
      assert Leads(r, t);
      if s in r.index && r.index[t] == r.index[s] { IndexInjective(r, s, t); }
    }
    forall t | t in b.index ensures Leads(b, t) { assert Leads(r, t); }
  }

  // ---------------------------------------------------------------- players that no session finds

  /** The players that can be had by id only. */
  ghost function Strays(r: Reg): set<Id> {
    set id | id in r.players && !(r.players[id] in r.index && r.index[r.players[id]] == id)
  }

  /** Logging in again on a session leaves exactly its former player astray. */
  lemma CreatedStrays(r: Reg, id: Id, s: Address)
    requires Sound(r) && id !in r.players
    ensures Strays(Created(r, id, s)) == Strays(r) + (if s in r.index then {r.index[s]} else {})
    ensures FoundBySession(Created(r, id, s), s) == Some(id)
  {
    var r' := Created(r, id, s);
    forall x ensures x in Strays(r') <==> x in Strays(r) || (s in r.index && x == r.index[s]) {
      if s in r.index { assert Leads(r, s); }
    }
  }

  /** Removal by session takes exactly the player found and leaves nobody else astray. */
  lemma RemovedBySessionStrays(r: Reg, s: Address)
    requires Sound(r)
    ensures Strays(RemovedBySession(r, s)) == Strays(r)
    ensures RemovedBySession(r, s).players.Keys == r.players.Keys - (if s in r.index then {r.index[s]} else {})
  {
    var r' := RemovedBySession(r, s);
    forall x ensures x in Strays(r') <==> x in Strays(r) {
      if s in r.index {
        assert Leads(r, s);
        if x in r.players && r.players[x] in r.index && r.index[r.players[x]] == x { assert Leads(r, r.players[x]); }
      }
    }
  }

  /** Removal by id takes the player, but if this is a stray of a session in use, it sends the session's
      present player astray instead. */
  lemma RemovedByIdStrays(r: Reg, id: Id)
    requires Sound(r) && id in r.players
    ensures var s := r.players[id];
      Strays(RemovedById(r, id)) == Strays(r) - {id} + (if s in r.index && r.index[s] != id then {r.index[s]} else {})
  {
    var r', s := RemovedById(r, id), r.players[id];
    if s in r.index { assert Leads(r, s); }
    forall x ensures x in Strays(r') <==>
      (x in Strays(r) && x != id) || (s in r.index && r.index[s] != id && x == r.index[s])
    {
      if x in r.players && r.players[x] in r.index { assert Leads(r, r.players[x]); }
    }
  }

  /** A player that a session finds. */
  ghost predicate Found(r: Reg, x: Id) {
    x in r.players && FoundBySession(r, r.players[x]) == Some(x)
  }

  /** Removing one player by id makes some other player unfindable exactly when the session of the one
      is in the index with another id. */
  lemma OrphansExactly(r: Reg, id: Id)
    requires Sound(r) && id in r.players
    ensures (exists x :: x != id && Found(r, x) && !Found(RemovedById(r, id), x))
       <==> (r.players[id] in r.index && r.index[r.players[id]] != id)
  {
    var r', s := RemovedById(r, id), r.players[id];
    if s in r.index && r.index[s] != id {
      assert Leads(r, s);
      assert Found(r, r.index[s]) && !Found(r', r.index[s]);
    }
    forall x | x != id && Found(r, x) && !Found(r', x) ensures s in r.index && r.index[s] != id {
      assert r.players[x] in r.index && r.index[r.players[x]] == x;
    }
  }

  // ---------------------------------------------------------------- sessions and bindings

  const ACCEPTED_ID: Id := 4

  /** The registry, the player id of every session, and the sessions that player ids are bound to. */
  datatype Hall = Hall(reg: Reg, playerId: map<Address, Id>, bound: map<Id, Address>)

  /** A verified login request. */
  datatype Request = Request(userId: string, token: string)

  datatype Event =
    | Accept(s: Address)
    | Login(s: Address, request: Option<Request>, id: Id)
    | DropSession(s: Address)
    | DropId(id: Id)
    | Unbind(s: Address)

  predicate Acceptable(request: Option<Request>) {
    request.Some? && request.value.userId != "" && request.value.token != ""
  }

  /** A new session may have the address of an old one that no player holds any more; a login is given an
      id that no player has. */
  predicate Enabled(h: Hall, e: Event) {
    match e
    case Accept(s) => forall id :: id in h.reg.players ==> h.reg.players[id] != s
    case Login(s, _, id) => s in h.playerId && id !in h.reg.players
    case DropSession(_) => true
    case DropId(_) => true
    case Unbind(_) => true
  }

  /** Bindings to s are gone: erased, or expired with the session. */
  function Unbound(h: Hall, s: Address): Hall {
    h.(bound := map id | id in h.bound && h.bound[id] != s :: h.bound[id])
  }

  function Apply(h: Hall, e: Event): Hall {
    match e
    case Accept(s) => Unbound(h, s).(playerId := h.playerId[s := ACCEPTED_ID])
    case Login(s, request, id) =>
      if Acceptable(request) then Hall(Created(h.reg, id, s), h.playerId[s := id], h.bound[id := s]) else h
    case DropSession(s) => h.(reg := RemovedBySession(h.reg, s))
    case DropId(id) => h.(reg := RemovedById(h.reg, id))
    case Unbind(s) => Unbound(h, s)
  }

  predicate ValidRun(h: Hall, es: seq<Event>)
    decreases |es|
  {
    es == [] || (Enabled(h, es[0]) && ValidRun(Apply(h, es[0]), es[1..]))
  }

  function Run(h: Hall, es: seq<Event>): Hall
    decreases |es|
  {
    if es == [] then h else Run(Apply(h, es[0]), es[1..])
  }

  ghost predicate Knows(h: Hall, s: Address) {
    s in h.reg.index ==> s in h.playerId && h.playerId[s] == h.reg.index[s]
  }

  ghost predicate BoundRight(h: Hall, id: Id) {
    id in h.bound && id in h.reg.players ==> h.bound[id] == h.reg.players[id]
  }

  /** The registry is sound, a session that finds a player carries its id, and a player's id is bound to
      no other session than its own. */
  ghost predicate Agrees(h: Hall) {
    && Sound(h.reg)
    && (forall s :: s in h.reg.index ==> Knows(h, s))
    && (forall id :: id in h.bound ==> BoundRight(h, id))
  }

  lemma ApplyAgrees(h: Hall, e: Event)
    requires Agrees(h) && Enabled(h, e)
    ensures Agrees(Apply(h, e))
  {
    var h' := Apply(h, e);
    match e {
      case Login(s, _, id) => CreatedExactly(h.reg, id, s);
      case DropSession(s) => RemovalsKeep(h.reg, 0, s);
      case DropId(id) => if id in h.reg.players { RemovalsKeep(h.reg, id, h.reg.players[id]); }
      case _ =>
    }
    forall s | s in h'.reg.index ensures Knows(h', s) { assert s in h.reg.index ==> Knows(h, s); }
    forall id | id in h'.bound ensures BoundRight(h', id) { assert id in h.bound ==> BoundRight(h, id); }
  }

  lemma {:induction false} RunAgrees(h: Hall, es: seq<Event>)
    requires Agrees(h) && ValidRun(h, es)
    ensures Agrees(Run(h, es))
    decreases |es|
  {
    if es != [] {
      ApplyAgrees(h, es[0]);
      RunAgrees(Apply(h, es[0]), es[1..]);
    }
  }

  /** Over every run from an empty hall, with logins, logins again, and removals of either kind. */
  lemma RegistrySound(h: Hall, es: seq<Event>)
    requires h == Hall(Reg(map[], map[]), map[], map[]) && ValidRun(h, es)
    ensures Agrees(Run(h, es))
  {
    RunAgrees(h, es);
  }

  /** No accepted login happens on a session that has a player. */
  ghost predicate FirstLogins(h: Hall, es: seq<Event>)
    decreases |es|
  {
    es == [] ||
    ((es[0].Login? && Acceptable(es[0].request) ==> es[0].s !in h.reg.index) && FirstLogins(Apply(h, es[0]), es[1..]))
  }

  /** As long as nobody logs in again, every player is found by its session, whatever is removed how. */
  lemma {:induction false} NobodyAstray(h: Hall, es: seq<Event>)
    requires Agrees(h) && ValidRun(h, es) && Strays(h.reg) == {} && FirstLogins(h, es)
    ensures Strays(Run(h, es).reg) == {}
    decreases |es|
  {
    if es != [] {
      ApplyAgrees(h, es[0]);
      match es[0] {
        case Login(s, request, id) => if Acceptable(request) { CreatedStrays(h.reg, id, s); }
        case DropSession(s) => RemovedBySessionStrays(h.reg, s);
        case DropId(id) =>
          if id in h.reg.players {
            assert id !in Strays(h.reg);
            RemovedByIdStrays(h.reg, id);
          }
        case _ =>
      }
      NobodyAstray(Apply(h, es[0]), es[1..]);
    }
  }

  // ---------------------------------------------------------------- whose player a session steers

  /** The sessions with an accepted login since they were accepted themselves. */
  function LoggedAfter(logged: set<Address>, e: Event): set<Address> {
    match e
    case Accept(s) => logged - {s}
    case Login(s, request, _) => if Acceptable(request) then logged + {s} else logged
    case _ => logged
  }

  function GivenAfter(given: set<Id>, e: Event): set<Id> {
    if e.Login? && Acceptable(e.request) then given + {e.id} else given
  }

  function Logged(logged: set<Address>, es: seq<Event>): set<Address>
    decreases |es|
  {
    if es == [] then logged else Logged(LoggedAfter(logged, es[0]), es[1..])
  }

  /** No id is given twice, even if its first player is gone. */
  ghost predicate FreshIds(given: set<Id>, es: seq<Event>)
    decreases |es|
  {
    es == [] || ((es[0].Login? ==> es[0].id !in given) && FreshIds(GivenAfter(given, es[0]), es[1..]))
  }

  ghost predicate OwnsAt(h: Hall, logged: set<Address>, given: set<Id>, s: Address) {
    && (s in logged ==>
         (s in h.playerId && h.playerId[s] in given
          && (h.playerId[s] in h.reg.players ==> h.reg.players[h.playerId[s]] == s)))
    && (s !in logged && s in h.playerId ==> h.playerId[s] == ACCEPTED_ID)
  }

  ghost predicate Owns(h: Hall, logged: set<Address>, given: set<Id>) {
    && (forall id :: id in h.reg.players ==> id in given && h.reg.players[id] in logged)
    && (forall s :: OwnsAt(h, logged, given, s))
  }

  lemma ApplyOwns(h: Hall, e: Event, logged: set<Address>, given: set<Id>)
    requires Owns(h, logged, given) && Enabled(h, e) && (e.Login? ==> e.id !in given)
    ensures Owns(Apply(h, e), LoggedAfter(logged, e), GivenAfter(given, e))
  {
    var h', logged', given' := Apply(h, e), LoggedAfter(logged, e), GivenAfter(given, e);
    forall s ensures OwnsAt(h', logged', given', s) { assert OwnsAt(h, logged, given, s); }
  }

  lemma {:induction false} RunOwns(h: Hall, es: seq<Event>, logged: set<Address>, given: set<Id>, s: Address)
    requires Owns(h, logged, given) && ValidRun(h, es) && FreshIds(given, es)
    requires s in Run(h, es).playerId && Run(h, es).playerId[s] in Run(h, es).reg.players
    ensures var h', id := Run(h, es), Run(h, es).playerId[s];
      && (h'.reg.players[id] == s <==> s in Logged(logged, es))
      && (s !in Logged(logged, es) ==> id == ACCEPTED_ID)
    decreases |es|
  {
    if es == [] {
      assert OwnsAt(h, logged, given, s);
    } else {
      ApplyOwns(h, es[0], logged, given);
      RunOwns(Apply(h, es[0]), es[1..], LoggedAfter(logged, es[0]), GivenAfter(given, es[0]), s);
    }
  }

  /** If ids are never given twice: a session that carries the id of a present player is the one that the
      player was created for exactly if it has logged in. One that has not carries id 4, so it can steer
      player 4, whoever that is. */
  lemma OwnPlayerExactly(h: Hall, es: seq<Event>, s: Address)
    requires h == Hall(Reg(map[], map[]), map[], map[]) && ValidRun(h, es) && FreshIds({}, es)
    requires s in Run(h, es).playerId && Run(h, es).playerId[s] in Run(h, es).reg.players
    ensures var h', id := Run(h, es), Run(h, es).playerId[s];
      && (h'.reg.players[id] == s <==> s in Logged({}, es))
      && (s !in Logged({}, es) ==> id == ACCEPTED_ID)
  {
    RunOwns(h, es, {}, {}, s);
  }

  /** The input: 4 goes to a first session, and a second one, that never logs in, carries it, too. */
  lemma StrangerCarries(request: Request) returns (es: seq<Event>)
    requires Acceptable(Some(request))
    ensures var h := Hall(Reg(map[], map[]), map[], map[]);
      && ValidRun(h, es) && FreshIds({}, es)
      && Run(h, es) == Hall(Reg(map[4 := 1], map[1 := 4]), map[1 := 4, 2 := 4], map[4 := 1])
  {
    es := [Accept(1), Login(1, Some(request), 4), Accept(2)];
    var h := Hall(Reg(map[], map[]), map[], map[]);
    var a := Hall(Reg(map[], map[]), map[1 := 4], map[]);
    var b := Hall(Reg(map[4 := 1], map[1 := 4]), map[1 := 4], map[4 := 1]);
    var c := b.(playerId := map[1 := 4, 2 := 4]);
    assert es[1..] == [es[1], es[2]] && es[1..][1..] == [es[2]] && es[1..][1..][1..] == [];
    assert Apply(h, es[0]) == a && Apply(a, es[1]) == b && Apply(b, es[2]) == c;
    assert Run(c, []) == c && Run(b, [es[2]]) == c && Run(a, es[1..]) == c;
    assert ValidRun(c, []) && ValidRun(b, [es[2]]) && ValidRun(a, es[1..]);
    assert FreshIds({4}, []) && FreshIds({4}, [es[2]]) && FreshIds({}, es[1..]);
  }
}
