/** internal/controllers/rooms/rooms.go: creating a room with a random pin,
    joining a room by pin and listing its players, over the document store.
    A store call that can fail is given as a parameter: a flag for a query
    that fails, or the error a write reports. */
module RoomsController {
  import opened Common
  import opened GoStrings
  import opened GoFormat
  import opened PlayerModels
  import opened RoomModels
  import opened DocumentStore

  /** The draw `rd.Intn(999999)`: a number in [0, 999999). */
  const PinRange: nat := 999999

  /** The player record `getPlayers` sends for a stored player: `Id` from the
      document key, name and join time from its fields, and `host` false since
      no handler stores a host field. */
  function ViewOf(p: Player): (v: PlayerView)
    ensures v.id == p.id && v.name == p.name && v.joinedAt == p.joinedAt && !v.host
  {
    PlayerView(p.id, p.name, false, p.joinedAt)
  }

  /** `pls` holds the record of every player of `players`, in the same order. */
  ghost predicate IsPlayerListing(players: seq<Player>, pls: seq<PlayerView>) {
    |pls| == |players| && forall j :: 0 <= j < |pls| ==> pls[j] == ViewOf(players[j])
  }

  /** POST /rooms. Body errors come first and add nothing; the pin is the draw
      printed with `%06d`; the new room document holds the request name as
      sent, the pin and a server timestamp, and the reply carries its id and
      that same pin. */
  method NewRoom(store: Store, body: Body<RoomNewRequest>, n: nat, addError: Option<GoError>)
    returns (reply: Reply<RoomNewResponse>)
    requires store.Valid() && n < PinRange
    modifies store
    ensures store.Valid()
    ensures VotesHavePlayers(old(store.rooms)) ==> VotesHavePlayers(store.rooms)
    ensures !reply.Json? ==> unchanged(store)
    ensures body.Unparseable? ==> reply == Failure(500, body.error.message)
    ensures body.Parsed? && IsBlank(body.request.name) ==> reply == Failure(400, RoomNameRequired)
    ensures body.Parsed? && !IsBlank(body.request.name) && addError.Some? ==>
              reply == Failure(500, addError.value.message)
    ensures body.Parsed? && !IsBlank(body.request.name) && addError.None? ==>
              && reply.Json?
              && |reply.payload.pinCode| == 6 && AllDigits(reply.payload.pinCode)
              && ParseDecimal(reply.payload.pinCode) == n
              && store.rooms == old(store.rooms) + [Room(reply.payload.roomId, body.request.name,
                                                        Some(reply.payload.pinCode), old(store.clock), None, [], map[])]
              && (forall j :: 0 <= j < |old(store.rooms)| ==> old(store.rooms)[j].id != reply.payload.roomId)
              && store.nextId == old(store.nextId) + 1 && store.clock == old(store.clock) + 1
  {
    if body.Unparseable? {
      return Failure(500, body.error.message);
    }
    var req := body.request;
    var invalid := ValidateRoomNew(req);
    if invalid.Some? {
      return Failure(400, invalid.value.message);
    }
    var pinCode := Sprintf06d(n);
    if addError.Some? {
      return Failure(500, addError.value.message);
    }
    var id := store.AddRoom(req.name, Some(pinCode));
    return Json(RoomNewResponse(id, pinCode));
  }

  /** POST /rooms/{pincode}/join. Body errors come first; the room is the first
      with the pincode and must decode; then one player document with the
      request name and a server timestamp is added to it. The host flag of the
      request is neither stored nor echoed. */
  method JoinRoom(store: Store, pinCode: string, body: Body<RoomJoinRequest>,
                  roomQueryFails: bool, addError: Option<GoError>)
    returns (reply: Reply<RoomJoinResponse>)
    requires store.Valid()
    modifies store
    ensures store.Valid()
    ensures VotesHavePlayers(old(store.rooms)) ==> VotesHavePlayers(store.rooms)
    ensures !reply.Json? ==> unchanged(store)
    ensures body.Unparseable? ==> reply == Failure(500, body.error.message)
    ensures body.Parsed? && IsBlank(body.request.playerName) ==> reply == Failure(400, PlayerNameRequired)
    ensures body.Parsed? && !IsBlank(body.request.playerName)
            && (roomQueryFails || FindRoomByPin(old(store.rooms), pinCode).None?) ==>
              reply == Failure(404, RoomNotFound)
    ensures body.Parsed? && !IsBlank(body.request.playerName)
            && !roomQueryFails && FindRoomByPin(old(store.rooms), pinCode).Some? ==>
              var i := FindRoomByPin(old(store.rooms), pinCode).value;
              var room := old(store.rooms)[i];
              var name := body.request.playerName;
              && (room.decodeError.Some? ==> reply == Failure(500, RoomUnreadable))
              && (room.decodeError.None? && addError.Some? ==> reply == Failure(500, addError.value.message))
              && (room.decodeError.None? && addError.None? ==>
                    && reply.Json?
                    && reply.payload == RoomJoinResponse(RoomView(room.id, room.name, pinCode, room.createdAt),
                                                         reply.payload.playerId, name, false)
                    && !HasPlayer(room.players, reply.payload.playerId)
                    && store.rooms == old(store.rooms)[i := room.(players := room.players
                                                  + [Player(reply.payload.playerId, name, old(store.clock), None)])]
                    && store.nextId == old(store.nextId) + 1 && store.clock == old(store.clock) + 1)
  {
    if body.Unparseable? {
      return Failure(500, body.error.message);
    }
    var req := body.request;
    var invalid := ValidateRoomJoin(req);
    if invalid.Some? {
      return Failure(400, invalid.value.message);
    }
    var found := if roomQueryFails then None else FindRoomByPin(store.rooms, pinCode);
    if found.None? {
      return Failure(404, RoomNotFound);
    }
    var i := found.value;
    var room := store.rooms[i];
    if room.decodeError.Some? {
      return Failure(500, RoomUnreadable);
    }
    var view := RoomView(room.id, room.name, room.pinCode.value, room.createdAt);
    if addError.Some? {
      return Failure(500, addError.value.message);
    }
    var playerId := store.AddPlayer(i, req.playerName);
    return Json(RoomJoinResponse(view, playerId, req.playerName, false));
  }

  /** GET /rooms/{pincode}/players. The room is the first with the pincode;
      its players are read in timestamp order into a slice of the same
      length, one record per document, and the first document that does not
      decode ends the request with its error. */
  method GetPlayers(store: Store, pinCode: string, roomQueryFails: bool, listError: Option<GoError>)
    returns (reply: Reply<seq<PlayerView>>)
    requires store.Valid()
    ensures roomQueryFails || FindRoomByPin(store.rooms, pinCode).None? ==> reply == Failure(404, RoomNotFound)
    ensures !roomQueryFails && FindRoomByPin(store.rooms, pinCode).Some? ==>
              var players := store.rooms[FindRoomByPin(store.rooms, pinCode).value].players;
              && (listError.Some? ==> reply == Failure(500, listError.value.message))
              && (listError.None? && FirstUndecodable(players).Some? ==>
                    reply == Failure(500, players[FirstUndecodable(players).value].decodeError.value.message))
              && (listError.None? && FirstUndecodable(players).None? ==>
                    && reply.Json?
                    && IsPlayerListing(players, reply.payload)
                    && (forall a, b :: 0 <= a < b < |reply.payload| ==> reply.payload[a].joinedAt < reply.payload[b].joinedAt)
                    && (forall a, b :: 0 <= a < b < |reply.payload| ==> reply.payload[a].id != reply.payload[b].id))
  {
    var found := if roomQueryFails then None else FindRoomByPin(store.rooms, pinCode);
    if found.None? {
      return Failure(404, RoomNotFound);
    }
    if listError.Some? {
      return Failure(500, listError.value.message);
    }
    var players := store.rooms[found.value].players;
    assert PlayersOk(players, store.nextId, store.clock);
    var pls := new PlayerView[|players|];
    var k := 0;
    while k < |players|
      invariant 0 <= k <= |players|
      invariant forall j :: 0 <= j < k ==> players[j].decodeError.None? && pls[j] == ViewOf(players[j])
    {
      if players[k].decodeError.Some? {
        return Failure(500, players[k].decodeError.value.message);
      }
      pls[k] := ViewOf(players[k]);
      k := k + 1;
    }
    return Json(pls[..]);
  }

  /** In the model's query order, where a new room comes after the rooms
      already stored, adding a room keeps the answer of every pincode query
      that already had one: an earlier room with a colliding pin shadows the
      new room for joins and listings. A pin no earlier room has finds the new
      one, and any other pin still finds nothing. */
  lemma {:induction false} AddRoomPinLookup(rooms: seq<Room>, room: Room, pin: string)
    ensures FindRoomByPin(rooms, pin).Some? ==> FindRoomByPin(rooms + [room], pin) == FindRoomByPin(rooms, pin)
    ensures FindRoomByPin(rooms, pin).None? && room.pinCode == Some(pin) ==>
              FindRoomByPin(rooms + [room], pin) == Some(|rooms|)
    ensures FindRoomByPin(rooms, pin).None? && room.pinCode != Some(pin) ==> FindRoomByPin(rooms + [room], pin).None?
  {
    var rs := rooms + [room];
    assert forall j :: 0 <= j < |rooms| ==> rs[j] == rooms[j];
    var r := FindRoomByPin(rs, pin);
    if FindRoomByPin(rooms, pin).Some? {
      var k := FindRoomByPin(rooms, pin).value;
      assert rs[k].pinCode == Some(pin);
      assert r.Some? && r.value <= k;
    } else if room.pinCode == Some(pin) {
      assert rs[|rooms|].pinCode == Some(pin);
      assert r.Some?;
    } else {
      forall j | 0 <= j < |rs| ensures rs[j].pinCode != Some(pin) {
        if j < |rooms| {
          assert rs[j] == rooms[j];
        }
      }
    }
  }

  /** internal/controllers/rooms/rooms_test.go, replayed against the contracts:
      a room is created, and a player joins by its pin and is listed. */
  method RoomScenario() {
    var store := new Store();
    assert !IsBlank("Room") && !IsBlank("Player") by {
      assert !IsSpace("Room"[0]) && !IsSpace("Player"[0]);
    }
    var created := NewRoom(store, Parsed(RoomNewRequest("Room")), 42, None);
    assert created.Json?;
    var pin := created.payload.pinCode;
    assert FindRoomByPin([], pin).None?;
    assert store.rooms == [] + [store.rooms[0]];
    AddRoomPinLookup([], store.rooms[0], pin);
    assert FindRoomByPin(store.rooms, pin) == Some(0);
    var joined := JoinRoom(store, pin, Parsed(RoomJoinRequest("Player", Some(true))), false, None);
    assert joined.Json? && joined.payload.room.id == created.payload.roomId;
    assert joined.payload.playerName == "Player" && !joined.payload.playerHost;
    assert store.rooms[0].players == [Player(joined.payload.playerId, "Player", 1, None)];
    assert FindRoomByPin(store.rooms, pin) == Some(0);
    assert FirstUndecodable(store.rooms[0].players).None?;
    var listed := GetPlayers(store, pin, false, None);
    assert listed.Json? && |listed.payload| == 1 && listed.payload[0] == ViewOf(store.rooms[0].players[0]);
    assert listed.payload == [listed.payload[0]];
    assert listed == Json([PlayerView(joined.payload.playerId, "Player", false, 1)]);
  }
}
