/** The player record of internal/models/players/players.go as the handlers
    return it. */
module PlayerModels {

  /** `players.Player`: `host` is decoded from a field the shown handlers never
      write, so in their replies it is always false. */
  datatype PlayerView = PlayerView(id: string, name: string, host: bool, joinedAt: nat)
}

/** Request and response types of internal/models/rooms/rooms.go and their
    validators. Each validator trims white space for its test only: it is a
    function of the request value and returns nil (None) or one error, so the
    request it looks at is never altered. */
module RoomModels {
  import opened Common
  import opened GoStrings

  const RoomNameRequired: string := "the name of the room is required"
  const PlayerNameRequired: string := "the name of the player is required"

  /** `rooms.Room` as sent back to clients, with `Id` filled in from the
      document reference. The topic is left out: no shown handler writes it. */
  datatype RoomView = RoomView(id: string, name: string, pinCode: string, createdAt: nat)

  datatype RoomNewRequest = RoomNewRequest(name: string)
  datatype RoomNewResponse = RoomNewResponse(roomId: string, pinCode: string)

  /** `host` is the optional `*bool` of the request; None is Go's nil pointer. */
  datatype RoomJoinRequest = RoomJoinRequest(playerName: string, playerHost: Option<bool>)
  datatype RoomJoinResponse = RoomJoinResponse(room: RoomView, playerId: string, playerName: string, playerHost: bool)

  datatype RoomTopicRequest = RoomTopicRequest(topicName: string)
  datatype RenameUserRequest = RenameUserRequest(playerName: string)

  /** The room name is required once white space is trimmed. */
  function ValidateRoomNew(body: RoomNewRequest): (err: Option<GoError>)
    ensures err == if IsBlank(body.name) then Some(GoError(RoomNameRequired)) else None
  {
    TrimSpaceEmptyIffBlank(body.name);
    if |TrimSpace(body.name)| == 0 then Some(GoError(RoomNameRequired)) else None
  }

  /** The player name is required once trimmed; the host flag plays no part. */
  function ValidateRoomJoin(body: RoomJoinRequest): (err: Option<GoError>)
    ensures err == if IsBlank(body.playerName) then Some(GoError(PlayerNameRequired)) else None
  {
    TrimSpaceEmptyIffBlank(body.playerName);
    if |TrimSpace(body.playerName)| == 0 then Some(GoError(PlayerNameRequired)) else None
  }

  /** A blank topic is rejected, with the player-name message the source uses. */
  function ValidateRoomTopic(body: RoomTopicRequest): (err: Option<GoError>)
    ensures err == if IsBlank(body.topicName) then Some(GoError(PlayerNameRequired)) else None
  {
    TrimSpaceEmptyIffBlank(body.topicName);
    if |TrimSpace(body.topicName)| == 0 then Some(GoError(PlayerNameRequired)) else None
  }

  /** The new player name is required once trimmed, with the join message. */
  function ValidateRenameUser(body: RenameUserRequest): (err: Option<GoError>)
    ensures err == if IsBlank(body.playerName) then Some(GoError(PlayerNameRequired)) else None
  {
    TrimSpaceEmptyIffBlank(body.playerName);
    if |TrimSpace(body.playerName)| == 0 then Some(GoError(PlayerNameRequired)) else None
  }

  /** The empty name and a name of spaces are both refused; a name with
      surrounding spaces passes and is not trimmed by validation. */
  lemma RoomNameExamples()
    ensures ValidateRoomNew(RoomNewRequest("")) == Some(GoError("the name of the room is required"))
    ensures ValidateRoomNew(RoomNewRequest("   ")) == Some(GoError("the name of the room is required"))
    ensures ValidateRoomNew(RoomNewRequest(" Room ")) == None
  {
    assert !IsSpace(" Room "[1]);
  }

  /** Whether a join request is valid does not depend on its host flag. */
  lemma JoinIgnoresHost(body: RoomJoinRequest, host: Option<bool>)
    ensures ValidateRoomJoin(body.(playerHost := host)) == ValidateRoomJoin(body)
  {
  }
}
