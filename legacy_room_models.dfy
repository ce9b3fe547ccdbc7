/** The older request types of models/rooms/ (rooms.go, room.go and
    new_room.go are successive revisions of one package) and
    models/players/players.go. These validators test only `len(...) == 0`:
    nothing is trimmed. */
module LegacyRoomModels {
  import opened Common
  import opened GoStrings
  import RoomModels

  const RoomNameRequired: string := "the name of the room is required"
  const PlayerNameRequired: string := "the name of the player is required"
  const RoomIdRequired: string := "the room_id is required"

  /** `players.Player` of the older revision (its timestamp field is `JoinAt`). */
  datatype PlayerView = PlayerView(id: string, name: string, joinAt: nat)

  datatype RoomNewRequest = RoomNewRequest(name: string)
  datatype RoomNewResponse = RoomNewResponse(roomId: string)

  /** The join request of models/rooms/rooms.go, which the older controller parses. */
  datatype RoomJoinRequest = RoomJoinRequest(playerName: string)

  /** The join request of models/rooms/room.go, which also carries the room id. */
  datatype RoomJoinByIdRequest = RoomJoinByIdRequest(name: string, roomId: string)

  datatype RoomJoinResponse = RoomJoinResponse(roomId: string, roomName: string, playerId: string, playerName: string)

  /** `RoomNewRequest.Validate`, word for word the same in rooms.go, room.go and
      new_room.go: only the empty name is refused. */
  function ValidateRoomNew(body: RoomNewRequest): (err: Option<GoError>)
    ensures err.Some? <==> body.name == ""
    ensures err.Some? ==> err.value.message == RoomNameRequired
  {
    if |body.name| == 0 then Some(GoError(RoomNameRequired)) else None
  }

  /** models/rooms/rooms.go: only the empty player name is refused. */
  function ValidateRoomJoin(body: RoomJoinRequest): (err: Option<GoError>)
    ensures err.Some? <==> body.playerName == ""
    ensures err.Some? ==> err.value.message == PlayerNameRequired
  {
    if |body.playerName| == 0 then Some(GoError(PlayerNameRequired)) else None
  }

  /** models/rooms/room.go: the name is checked first, then the room id. */
  function ValidateRoomJoinById(body: RoomJoinByIdRequest): (err: Option<GoError>)
    ensures body.name == "" ==> err == Some(GoError(PlayerNameRequired))
    ensures body.name != "" && body.roomId == "" ==> err == Some(GoError(RoomIdRequired))
    ensures body.name != "" && body.roomId != "" ==> err == None
  {
    if |body.name| == 0 then Some(GoError(PlayerNameRequired))
    else if |body.roomId| == 0 then Some(GoError(RoomIdRequired))
    else None
  }

  /** A name made only of white space passes, as a room name and as a player
      name: nothing is trimmed. */
  lemma WhitespaceNameAccepted(name: string)
    requires name != "" && IsBlank(name)
    ensures ValidateRoomNew(RoomNewRequest(name)) == None
    ensures ValidateRoomJoin(RoomJoinRequest(name)) == None
  {
  }

  /** The trimming validators of the current revision refuse everything the
      older ones refuse, and more: a blank but non-empty name separates them,
      as a room name and as a player name. */
  lemma TrimmingIsStricter(name: string, host: Option<bool>)
    ensures ValidateRoomNew(RoomNewRequest(name)).Some? ==> RoomModels.ValidateRoomNew(RoomModels.RoomNewRequest(name)).Some?
    ensures name == "   " ==> ValidateRoomNew(RoomNewRequest(name)).None? && RoomModels.ValidateRoomNew(RoomModels.RoomNewRequest(name)).Some?
    ensures ValidateRoomJoin(RoomJoinRequest(name)).Some? ==>
              RoomModels.ValidateRoomJoin(RoomModels.RoomJoinRequest(name, host)).Some?
    ensures name == "   " ==>
              ValidateRoomJoin(RoomJoinRequest(name)).None? && RoomModels.ValidateRoomJoin(RoomModels.RoomJoinRequest(name, host)).Some?
  {
  }
}
