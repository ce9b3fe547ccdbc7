/** controllers/rooms/rooms.go: the older room endpoints, which address a
    room by its document id and store no pin. Store calls that can fail are
    parameters, as in the current controllers. */
module LegacyRoomsController {
  import opened Common
  import opened DocumentStore
  import opened LegacyRoomModels

  /** The older player record for a stored player: `Id` from the document key,
      name and join time from its fields. */
  function LegacyViewOf(p: Player): (v: PlayerView)
    ensures v.id == p.id && v.name == p.name && v.joinAt == p.joinedAt
  {
    PlayerView(p.id, p.name, p.joinedAt)
  }

  /** The records of `players`, in their stored order. */
  function LegacyViews(players: seq<Player>): (pls: seq<PlayerView>)
    ensures |pls| == |players| && forall k :: 0 <= k < |players| ==> pls[k] == LegacyViewOf(players[k])
  {
    seq(|players|, k requires 0 <= k < |players| => LegacyViewOf(players[k]))
  }

  /** `pls` holds the record of every player, each as often as the player
      occurs. The query has no `OrderBy`, so the order is not part of the
      promise. */
  ghost predicate IsLegacyListing(players: seq<Player>, pls: seq<PlayerView>) {
    multiset(pls) == multiset(LegacyViews(players))
  }

  /** The records of the players in their stored order are one such listing. */
  lemma {:induction false} InOrderIsListing(players: seq<Player>, pls: seq<PlayerView>)
    requires |pls| == |players|
    requires forall j :: 0 <= j < |pls| ==> pls[j] == LegacyViewOf(players[j])
    ensures IsLegacyListing(players, pls)
  {
    assert pls == LegacyViews(players);
  }

  /** POST /rooms. Body errors come first; a failed write is reported as 400;
      otherwise a room document with the request name and a server
      timestamp, and no pincode, is created and its id returned. */
  method NewRoom(store: Store, body: Body<RoomNewRequest>, setError: Option<GoError>)
    returns (reply: Reply<RoomNewResponse>)
    requires store.Valid()
    modifies store
    ensures store.Valid()
    ensures VotesHavePlayers(old(store.rooms)) ==> VotesHavePlayers(store.rooms)
    ensures !reply.Json? ==> unchanged(store)
    ensures body.Unparseable? ==> reply == Failure(500, body.error.message)
    ensures body.Parsed? && body.request.name == "" ==> reply == Failure(400, RoomNameRequired)
    ensures body.Parsed? && body.request.name != "" && setError.Some? ==>
              reply == Failure(400, setError.value.message)
    ensures body.Parsed? && body.request.name != "" && setError.None? ==>
              && reply.Json?
              && store.rooms == old(store.rooms) + [Room(reply.payload.roomId, body.request.name, None, old(store.clock), None, [], map[])]
              && (forall j :: 0 <= j < |old(store.rooms)| ==> old(store.rooms)[j].id != reply.payload.roomId)
              && FindRoomById(store.rooms, reply.payload.roomId) == Some(|old(store.rooms)|)
              && store.nextId == old(store.nextId) + 1 && store.clock == old(store.clock) + 1
  {
    if body.Unparseable? {
      return Failure(500, body.error.message);
    }
    var req := body.request;
    var invalid := ValidateRoomNew(req);
    if invalid.Some? {
      return Failure(400, invalid.value.message);
    }
    if setError.Some? {
      return Failure(400, setError.value.message);
    }
    ghost var before := store.rooms;
    var id := store.AddRoom(req.name, None);
    NewRoomFoundById(before, store.rooms[|before|]);
    return Json(RoomNewResponse(id));
  }

  /** A room appended with an id no earlier room has is the one its id finds. */
  lemma {:induction false} NewRoomFoundById(rooms: seq<Room>, room: Room)
    requires forall j :: 0 <= j < |rooms| ==> rooms[j].id != room.id
    ensures FindRoomById(rooms + [room], room.id) == Some(|rooms|)
  {
    var rs := rooms + [room];
    assert rs[|rooms|].id == room.id;
    assert forall j :: 0 <= j < |rooms| ==> rs[j] == rooms[j];
  }

  /** POST /rooms/{id}/join. Body errors come first; the room is the document
      with that id, read into a map, which every stored document fits, so the
      room's `decodeError` plays no part; a failed write is reported as 400;
      otherwise one player document with the request name and a server
      timestamp is added and the reply names the room and the player. */
  method JoinRoom(store: Store, roomId: string, body: Body<RoomJoinRequest>,
                  getFails: bool, setError: Option<GoError>)
    returns (reply: Reply<RoomJoinResponse>)
    requires store.Valid()
    modifies store
    ensures store.Valid()
    ensures VotesHavePlayers(old(store.rooms)) ==> VotesHavePlayers(store.rooms)
    ensures !reply.Json? ==> unchanged(store)
    ensures body.Unparseable? ==> reply == Failure(500, body.error.message)
    ensures body.Parsed? && body.request.playerName == "" ==> reply == Failure(400, PlayerNameRequired)
    ensures body.Parsed? && body.request.playerName != ""
            && (getFails || FindRoomById(old(store.rooms), roomId).None?) ==>
              reply == Failure(404, RoomNotFound)
    ensures body.Parsed? && body.request.playerName != ""
            && !getFails && FindRoomById(old(store.rooms), roomId).Some? ==>
              var i := FindRoomById(old(store.rooms), roomId).value;
              var room := old(store.rooms)[i];
              var name := body.request.playerName;
              && (setError.Some? ==> reply == Failure(400, setError.value.message))
              && (setError.None? ==>
                    && reply.Json?
                    && reply.payload == RoomJoinResponse(roomId, room.name, reply.payload.playerId, name)
                    && !HasPlayer(room.players, reply.payload.playerId)
                    && store.rooms == old(store.rooms)[i := room.(players := room.players
                                                  + [Player(reply.payload.playerId, name, old(store.clock), None)])]
                    && store.nextId == old(store.nextId) + 1 && store.clock == old(store.clock) + 1)
  {
    if body.Unparseable? {
      return Failure(500, body.error.message);
    }
    var req := body.request;
    var invalid := ValidateRoomJoin(req);
    if invalid.Some? {
      return Failure(400, invalid.value.message);
    }
    var found := if getFails then None else FindRoomById(store.rooms, roomId);
    if found.None? {
      return Failure(404, RoomNotFound);
    }
    var i := found.value;
    var room := store.rooms[i];
    if setError.Some? {
      return Failure(400, setError.value.message);
    }
    var playerId := store.AddPlayer(i, req.playerName);
    return Json(RoomJoinResponse(roomId, room.name, playerId, req.playerName));
  }

  /** GET /rooms/{id}/players. An empty id is refused before the store is
      read; then the room must exist, and its players are read into a slice of
      the same length. The query has no order, so a document that does not
      decode ends the request with its error, but which one is not fixed. */
  method GetPlayers(store: Store, roomId: string, getFails: bool, listError: Option<GoError>)
    returns (reply: Reply<seq<PlayerView>>)
    requires store.Valid()
    ensures roomId == "" ==> reply == Failure(400, RoomIdRequired)
    ensures roomId != "" && (getFails || FindRoomById(store.rooms, roomId).None?) ==>
              reply == Failure(404, RoomNotFound)
    ensures roomId != "" && !getFails && FindRoomById(store.rooms, roomId).Some? ==>
              var players := store.rooms[FindRoomById(store.rooms, roomId).value].players;
              && (listError.Some? ==> reply == Failure(500, listError.value.message))
              && (listError.None? && FirstUndecodable(players).Some? ==>
                    exists j :: 0 <= j < |players| && players[j].decodeError.Some? &&
                                reply == Failure(500, players[j].decodeError.value.message))
              && (listError.None? && FirstUndecodable(players).None? ==>
                    reply.Json? && IsLegacyListing(players, reply.payload))
  {
    if |roomId| == 0 {
      return Failure(400, RoomIdRequired);
    }
    var found := if getFails then None else FindRoomById(store.rooms, roomId);
    if found.None? {
      return Failure(404, RoomNotFound);
    }
    if listError.Some? {
      return Failure(500, listError.value.message);
    }
    var players := store.rooms[found.value].players;
    var pls := new PlayerView[|players|];
    var k := 0;
    while k < |players|
      invariant 0 <= k <= |players|
      invariant forall j :: 0 <= j < k ==> players[j].decodeError.None? && pls[j] == LegacyViewOf(players[j])
    {
      if players[k].decodeError.Some? {
        return Failure(500, players[k].decodeError.value.message);
      }
      pls[k] := LegacyViewOf(players[k]);
      k := k + 1;
    }
    InOrderIsListing(players, pls[..]);
    return Json(pls[..]);
  }
}
