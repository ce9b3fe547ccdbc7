/** internal/controllers/votings/votings.go: the three voting endpoints over
    the document store. A store call that can fail is given as a parameter
    saying whether it fails in this run. */
module VotingsController {
  import opened Common
  import opened GoStrings
  import opened VotingModels
  import opened DocumentStore

  const PlayerNotFound: string := "player not found"
  const RegisterFailed: string := "an error occurred while registering the vote"

  /** The listing entry for the vote of `key`: the key as player id, the
      voter's name joined in from the room's players. */
  function VoteViewOf(room: Room, key: string): (v: VoteView)
    requires key in room.votings && HasPlayer(room.players, key)
    ensures v.playerId == key && v.value == room.votings[key].value && v.votedAt == room.votings[key].votedAt
    ensures exists j :: 0 <= j < |room.players| && room.players[j].id == key && room.players[j].name == v.playerName
  {
    VoteView(key, PlayerName(room.players, key), room.votings[key].value, room.votings[key].votedAt)
  }

  ghost predicate RoomVotesHavePlayers(room: Room) {
    forall key :: key in room.votings ==> HasPlayer(room.players, key)
  }

  /** `v` is the listing entry of one of the room's votes. */
  ghost predicate ListsVote(room: Room, v: VoteView) {
    v.playerId in room.votings && HasPlayer(room.players, v.playerId) && v == VoteViewOf(room, v.playerId)
  }

  /** `votes` lists every vote of the room exactly once, each joined to its voter. */
  ghost predicate IsVoteListing(room: Room, votes: seq<VoteView>) {
    && |votes| == |room.votings.Keys|
    && (forall j :: 0 <= j < |votes| ==> ListsVote(room, votes[j]))
    && (forall key :: key in room.votings ==> exists j :: 0 <= j < |votes| && votes[j].playerId == key)
  }

  /** POST /votings/{pincode}. Body errors come first and touch nothing; the
      room is the first with the pincode; the player must belong to it; then
      the vote document of that player is created or overwritten. */
  method RegisterVote(store: Store, pinCode: string, body: Body<RegisterVoteRequest>,
                      roomQueryFails: bool, playerGetFails: bool, voteSetFails: bool)
    returns (reply: Reply<()>)
    requires store.Valid()
    modifies store
    ensures store.Valid()
    ensures VotesHavePlayers(old(store.rooms)) ==> VotesHavePlayers(store.rooms)
    ensures reply != Status(200) ==> unchanged(store)
    ensures body.Unparseable? ==> reply == Failure(500, body.error.message)
    ensures body.Parsed? && IsBlank(body.request.playerId) ==> reply == Failure(400, PlayerIdRequired)
    ensures body.Parsed? && !IsBlank(body.request.playerId)
            && (roomQueryFails || FindRoomByPin(old(store.rooms), pinCode).None?) ==>
              reply == Failure(404, RoomNotFound)
    ensures body.Parsed? && !IsBlank(body.request.playerId)
            && !roomQueryFails && FindRoomByPin(old(store.rooms), pinCode).Some? ==>
              var i := FindRoomByPin(old(store.rooms), pinCode).value;
              var req := body.request;
              var known := !playerGetFails && HasPlayer(old(store.rooms)[i].players, req.playerId);
              && (!known ==> reply == Failure(404, PlayerNotFound))
              && (known && voteSetFails ==> reply == Failure(500, RegisterFailed))
              && (known && !voteSetFails ==>
                    && reply == Status(200)
                    && store.rooms == old(store.rooms)[i := RecordVote(old(store.rooms)[i], req.playerId, req.value, old(store.clock))]
                    && store.nextId == old(store.nextId) && store.clock == old(store.clock) + 1)
  {
    if body.Unparseable? {
      return Failure(500, body.error.message);
    }
    var req := body.request;
    var invalid := ValidateRegisterVote(req);
    if invalid.Some? {
      return Failure(400, invalid.value.message);
    }
    var found := if roomQueryFails then None else FindRoomByPin(store.rooms, pinCode);
    if found.None? {
      return Failure(404, RoomNotFound);
    }
    var i := found.value;
    if playerGetFails || !HasPlayer(store.rooms[i].players, req.playerId) {
      return Failure(404, PlayerNotFound);
    }
    if voteSetFails {
      return Failure(500, RegisterFailed);
    }
    store.SetVote(i, req.playerId, req.value);
    return Status(200);
  }

  /** DELETE /votings/{pincode}/reset. Queues a delete for every vote document
      of the room and commits the batch. A failed listing or commit is
      ignored: the reply is 200 and the votes stay. Players and other rooms
      never change. */
  method ResetVotes(store: Store, pinCode: string, roomQueryFails: bool, listFails: bool, commitFails: bool)
    returns (reply: Reply<()>)
    requires store.Valid()
    modifies store
    ensures store.Valid()
    ensures VotesHavePlayers(old(store.rooms)) ==> VotesHavePlayers(store.rooms)
    ensures store.nextId == old(store.nextId) && store.clock == old(store.clock)
    ensures roomQueryFails || FindRoomByPin(old(store.rooms), pinCode).None? ==>
              reply == Failure(404, RoomNotFound) && store.rooms == old(store.rooms)
    ensures !roomQueryFails && FindRoomByPin(old(store.rooms), pinCode).Some? ==>
              var i := FindRoomByPin(old(store.rooms), pinCode).value;
              && reply == Status(200)
              && (listFails || commitFails ==> store.rooms == old(store.rooms))
              && (!listFails && !commitFails ==>
                    store.rooms == old(store.rooms)[i := old(store.rooms)[i].(votings := map[])])
  {
    var found := if roomQueryFails then None else FindRoomByPin(store.rooms, pinCode);
    if found.None? {
      return Failure(404, RoomNotFound);
    }
    var i := found.value;
    var docs := if listFails then {} else store.rooms[i].votings.Keys;
    var batch: set<string> := {};
    var pending := docs;
    while pending != {}
      invariant pending <= docs
      invariant batch == docs - pending
      decreases pending
    {
      var key :| key in pending;
      batch := batch + {key};
      pending := pending - {key};
    }
    if !commitFails {
      ghost var rooms := store.rooms;
      store.DeleteVotes(i, batch);
      if listFails {
        assert rooms[i].votings - batch == rooms[i].votings;
        assert store.rooms == rooms;
      } else {
        assert rooms[i].votings - batch == map[];
      }
    }
    return Status(200);
  }

  /** GET /votings/{pincode}. One entry per vote document of the room, with
      the document key as player id and the voter's current name; a failed
      listing gives an empty list. */
  method GetVotes(store: Store, pinCode: string, roomQueryFails: bool, listFails: bool)
    returns (reply: Reply<seq<VoteView>>)
    requires store.Valid()
    requires !roomQueryFails && FindRoomByPin(store.rooms, pinCode).Some? ==>
               RoomVotesHavePlayers(store.rooms[FindRoomByPin(store.rooms, pinCode).value])
    ensures roomQueryFails || FindRoomByPin(store.rooms, pinCode).None? ==> reply == Failure(404, RoomNotFound)
    ensures !roomQueryFails && FindRoomByPin(store.rooms, pinCode).Some? ==>
              var room := store.rooms[FindRoomByPin(store.rooms, pinCode).value];
              && RoomVotesHavePlayers(room)
              && reply.Json?
              && (listFails ==> reply.payload == [])
              && (!listFails ==> IsVoteListing(room, reply.payload))
  {
    var found := if roomQueryFails then None else FindRoomByPin(store.rooms, pinCode);
    if found.None? {
      return Failure(404, RoomNotFound);
    }
    var room := store.rooms[found.value];
    if listFails {
      return Json([]);
    }
    var votes := ListVotes(room);
    return Json(votes);
  }

  /** `votes` lists exactly the votes of the room whose keys are not in `pending`. */
  ghost predicate ListsVotesBut(room: Room, votes: seq<VoteView>, pending: set<string>) {
    && (forall j :: 0 <= j < |votes| ==> votes[j].playerId !in pending && ListsVote(room, votes[j]))
    && (forall k :: k in room.votings && k !in pending ==> exists j :: 0 <= j < |votes| && votes[j].playerId == k)
  }

  lemma ListsVotesButStep(room: Room, votes: seq<VoteView>, pending: set<string>, key: string)
    requires ListsVotesBut(room, votes, pending)
    requires key in pending && key in room.votings && HasPlayer(room.players, key)
    ensures ListsVotesBut(room, votes + [VoteViewOf(room, key)], pending - {key})
  {
    var v := VoteViewOf(room, key);
    var votes' := votes + [v];
    assert ListsVote(room, v);
    forall j | 0 <= j < |votes'| ensures votes'[j].playerId !in pending - {key} && ListsVote(room, votes'[j]) {
      if j < |votes| {
        assert votes'[j] == votes[j];
      }
    }
    forall k | k in room.votings && k !in pending - {key} ensures exists j :: 0 <= j < |votes'| && votes'[j].playerId == k {
      if k == key {
        assert votes'[|votes|].playerId == k;
      } else {
        var j :| 0 <= j < |votes| && votes[j].playerId == k;
        assert votes'[j] == votes[j];
      }
    }
  }

  /** Once nothing is pending, the partial listing is the whole listing. */
  lemma ListsVotesButNone(room: Room, votes: seq<VoteView>)
    requires ListsVotesBut(room, votes, {}) && |votes| == |room.votings.Keys|
    ensures IsVoteListing(room, votes)
  {
  }

  /** The loop of `getVotes`: one entry appended per vote document, each
      joined to its voter's name. */
  method ListVotes(room: Room) returns (votes: seq<VoteView>)
    requires RoomVotesHavePlayers(room)
    ensures IsVoteListing(room, votes)
  {
    votes := [];
    var keys := room.votings.Keys;
    var pending := keys;
    while pending != {}
      invariant pending <= keys
      invariant |votes| + |pending| == |keys|
      invariant ListsVotesBut(room, votes, pending)
      decreases pending
    {
      var key :| key in pending;
      ListsVotesButStep(room, votes, pending, key);
      votes := votes + [VoteViewOf(room, key)];
      pending := pending - {key};
    }
    ListsVotesButNone(room, votes);
  }
}
