/** The PlayerManager and SessionManager objects and the login handler, proved against PlayerRegistry. */
module PlayerManager {
  import opened Collections
  import opened PlayerRegistry

  class Session {
    const address: Address
    var playerId: Id

    constructor (address: Address)
      ensures this.address == address && playerId == 0
    {
      this.address, playerId := address, 0;
    }
  }

  class Player {
    const id: Id
    const session: Session
    const name: string

    constructor (id: Id, session: Session, name: string)
      ensures this.id == id && this.session == session && this.name == name
    {
      this.id, this.session, this.name := id, session, name;
    }
  }

  class PlayerManager {
    var playersById: map<Id, Player>
    var idBySession: map<Address, Id>

    ghost predicate Valid()
      reads this
    {
      forall id :: id in playersById ==> playersById[id].id == id
    }

    function View(): Reg
      reads this
    {
      Reg(map id | id in playersById :: playersById[id].session.address, idBySession)
    }

    constructor ()
      ensures Valid() && View() == Reg(map[], map[])
    {
      playersById, idBySession := map[], map[];
    }

    method GetBySession(sess: Address) returns (p: Player?)
      requires Valid()
      ensures match FoundBySession(View(), sess)
        case None => p == null
        case Some(id) => p != null && p.id == id && p == playersById[id] && p.session.address == View().players[id]
      ensures if sess in idBySession && idBySession[sess] in playersById then p == playersById[idBySession[sess]]
              else p == null
    {
      if sess !in idBySession { return null; }
      if idBySession[sess] !in playersById { return null; }
      p := playersById[idBySession[sess]];
    }

    method GetById(id: Id) returns (p: Player?)
      requires Valid()
      ensures if id in View().players then p != null && p.id == id && p.session.address == View().players[id] else p == null
    {
      if id !in playersById { return null; }
      p := playersById[id];
    }

    method CreatePlayer(id: Id, name: string, sess: Session) returns (p: Player)
      requires Valid()
      modifies this
      ensures Valid() && View() == Created(old(View()), id, sess.address)
      ensures fresh(p) && p.id == id && p.name == name && p.session == sess && playersById == old(playersById)[id := p]
      ensures idBySession == old(idBySession)[sess.address := id]
    {
      p := new Player(id, sess, name);
      playersById := playersById[id := p];
      idBySession := idBySession[sess.address := id];
    }

    method RemoveBySession(sess: Address)
      requires Valid()
      modifies this
      ensures Valid() && View() == RemovedBySession(old(View()), sess)
      ensures if sess in old(idBySession)
              then idBySession == old(idBySession) - {sess} && playersById == old(playersById) - {old(idBySession)[sess]}
              else idBySession == old(idBySession) && playersById == old(playersById)
    {
      if sess !in idBySession { return; }
      var id := idBySession[sess];
      idBySession := idBySession - {sess};
      playersById := playersById - {id};
    }

    method RemoveById(id: Id)
      requires Valid()
      modifies this
      ensures Valid() && View() == RemovedById(old(View()), id)
      ensures if id in old(playersById)
              then playersById == old(playersById) - {id}
                   && idBySession == old(idBySession) - {old(playersById)[id].session.address}
              else idBySession == old(idBySession) && playersById == old(playersById)
    {
      if id !in playersById { return; }
      var sess := playersById[id].session;
      idBySession := idBySession - {sess.address};
      playersById := playersById - {id};
    }
  }

  /** The bindings of player ids; a session counts as alive until it is removed. */
  class SessionManager {
    var sessionsByPlayerId: map<Id, Session>

    function View(): map<Id, Address>
      reads this
    {
      map id | id in sessionsByPlayerId :: sessionsByPlayerId[id].address
    }

    constructor ()
      ensures View() == map[]
    {
      sessionsByPlayerId := map[];
    }

    method BindPlayer(playerId: Id, sess: Session)
      modifies this
      ensures View() == old(View())[playerId := sess.address]
      ensures sessionsByPlayerId == old(sessionsByPlayerId)[playerId := sess]
    {
      sessionsByPlayerId := sessionsByPlayerId[playerId := sess];
    }

    /** Erases every binding to a session. */
    method RemoveSession(sess: Address)
      modifies this
      ensures View() == map id | id in old(View()) && old(View())[id] != sess :: old(View())[id]
    {
      ghost var before := sessionsByPlayerId;
      var rest := sessionsByPlayerId.Keys;
      while rest != {}
        invariant rest <= sessionsByPlayerId.Keys <= before.Keys
        invariant forall id :: id in sessionsByPlayerId ==> sessionsByPlayerId[id] == before[id]
        invariant forall id :: id in before && id !in rest ==> (id in sessionsByPlayerId <==> before[id].address != sess)
      {
        var id :| id in rest;
        rest := rest - {id};
        if sessionsByPlayerId[id].address == sess {
          sessionsByPlayerId := sessionsByPlayerId - {id};
        }
      }
    }

    method FindByPlayerId(playerId: Id) returns (sess: Session?)
      ensures if playerId in View() then sess != null && sess.address == View()[playerId] else sess == null
    {
      if playerId !in sessionsByPlayerId { return null; }
      sess := sessionsByPlayerId[playerId];
    }
  }

  /** The login handler. `request` is None if verification failed, `nextId` is the id that the id
      generator hands out, `ids` are the player ids that sessions carry. */
  method OnRecvLogin(pm: PlayerManager, sm: SessionManager, session: Session?, request: Option<Request>, nextId: Id,
                     ghost ids: map<Address, Id>) returns (acked: bool)
    requires pm.Valid() && (session != null ==> session.address in ids && ids[session.address] == session.playerId)
    modifies pm, sm, session
    ensures pm.Valid() && acked == (session != null && Acceptable(request))
    ensures session == null ==> pm.View() == old(pm.View()) && sm.View() == old(sm.View())
    ensures session != null ==>
      Hall(pm.View(), ids[session.address := session.playerId], sm.View())
      == Apply(Hall(old(pm.View()), ids, old(sm.View())), Login(session.address, request, nextId))
    ensures session == null || request.None? || request.value.userId == "" || request.value.token == "" ==>
      && !acked && pm.playersById == old(pm.playersById) && pm.idBySession == old(pm.idBySession)
      && sm.sessionsByPlayerId == old(sm.sessionsByPlayerId)
      && (session != null ==> session.playerId == old(session.playerId))
    ensures session != null && request.Some? && request.value.userId != "" && request.value.token != "" ==>
      && acked && session.playerId == nextId && nextId in pm.playersById
      && pm.playersById[nextId].name == request.value.userId && pm.playersById[nextId].session == session
      && pm.playersById == old(pm.playersById)[nextId := pm.playersById[nextId]]
      && pm.idBySession == old(pm.idBySession)[session.address := nextId]
      && sm.sessionsByPlayerId == old(sm.sessionsByPlayerId)[nextId := session]
  {
    acked := false;
    if session == null { return; }
    assert ids[session.address := session.playerId] == ids;
    if request.None? { return; }
    var userId, token := request.value.userId, request.value.token;
    if userId == "" || token == "" { return; }
    var player := pm.CreatePlayer(nextId, userId, session);
    session.playerId := player.id;
    sm.BindPlayer(player.id, session);
    acked := true;
  }
}
