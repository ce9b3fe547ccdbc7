/** An in-memory model of the document database the handlers talk to: the
    "rooms" collection with, under each room, its "players" and "votings"
    documents.

    - The collection is a sequence, which is the order in which queries see
      the rooms, so "the first room with this pincode" is well defined.
    - Document ids come from a fresh-id supply: the decimal numeral of a
      counter that only grows.
    - Server timestamps come from a clock that ticks on every timestamped write.
    - Players of a room are kept in the order they were added; votes are keyed
      by player id.
    - `decodeError` is the error `DataTo` reports for a document whose fields
      do not fit the Go struct; documents written by the handlers have none. */
module DocumentStore {
  import opened Common
  import opened GoFormat
  import opened VotingModels

  datatype Player = Player(id: string, name: string, joinedAt: nat, decodeError: Option<GoError>)

  datatype Vote = Vote(value: VoteValue, votedAt: nat)

  /** `pinCode` is None for rooms written by the older revision, which stores no pincode. */
  datatype Room = Room(
    id: string,
    name: string,
    pinCode: Option<string>,
    createdAt: nat,
    decodeError: Option<GoError>,
    players: seq<Player>,
    votings: map<string, Vote>)

  /** The position of the first element satisfying `p`, if any. */
  function FirstIndex<T>(s: seq<T>, p: T -> bool): (r: Option<nat>)
    ensures r.Some? ==> r.value < |s| && p(s[r.value])
    ensures r.Some? ==> forall j :: 0 <= j < r.value ==> !p(s[j])
    ensures r.None? ==> forall j :: 0 <= j < |s| ==> !p(s[j])
  {
    if |s| == 0 then None
    else if p(s[0]) then Some(0)
    else match FirstIndex(s[1..], p) {
      case None => None
      case Some(k) => Some(k + 1)
    }
  }

  /** `Where("pincode", "==", pin).Limit(1)`: the first room with that pincode. */
  function FindRoomByPin(rooms: seq<Room>, pin: string): (r: Option<nat>)
    ensures r.Some? ==> r.value < |rooms| && rooms[r.value].pinCode == Some(pin)
    ensures r.Some? ==> forall j :: 0 <= j < r.value ==> rooms[j].pinCode != Some(pin)
    ensures r.None? <==> forall j :: 0 <= j < |rooms| ==> rooms[j].pinCode != Some(pin)
  {
    FirstIndex(rooms, (room: Room) => room.pinCode == Some(pin))
  }

  /** `Doc(id).Get()`: the room with that document id. */
  function FindRoomById(rooms: seq<Room>, id: string): (r: Option<nat>)
    ensures r.Some? ==> r.value < |rooms| && rooms[r.value].id == id
    ensures r.None? <==> forall j :: 0 <= j < |rooms| ==> rooms[j].id != id
  {
    FirstIndex(rooms, (room: Room) => room.id == id)
  }

  /** `Collection("players").Doc(id)`: the player with that document id. */
  function FindPlayer(players: seq<Player>, id: string): (r: Option<nat>)
    ensures r.Some? ==> r.value < |players| && players[r.value].id == id
    ensures r.None? <==> forall j :: 0 <= j < |players| ==> players[j].id != id
  {
    FirstIndex(players, (p: Player) => p.id == id)
  }

  /** The position of the first player document `DataTo` cannot decode. */
  function FirstUndecodable(players: seq<Player>): (r: Option<nat>)
    ensures r.Some? ==> r.value < |players| && players[r.value].decodeError.Some?
    ensures r.Some? ==> forall j :: 0 <= j < r.value ==> players[j].decodeError.None?
    ensures r.None? <==> forall j :: 0 <= j < |players| ==> players[j].decodeError.None?
  {
    FirstIndex(players, (p: Player) => p.decodeError.Some?)
  }

  predicate HasPlayer(players: seq<Player>, id: string) {
    FindPlayer(players, id).Some?
  }

  /** The name of the player a vote belongs to. */
  function PlayerName(players: seq<Player>, id: string): (name: string)
    requires HasPlayer(players, id)
    ensures exists j :: 0 <= j < |players| && players[j].id == id && players[j].name == name
  {
    var j := FindPlayer(players, id).value;
    players[j].name
  }

  /** The room after the vote document `key` was created or overwritten. */
  function RecordVote(room: Room, key: string, value: VoteValue, at: nat): (r: Room)
    ensures r.votings.Keys == room.votings.Keys + {key} && r.votings[key] == Vote(value, at)
    ensures forall k :: k in room.votings && k != key ==> r.votings[k] == room.votings[k]
    ensures r.players == room.players && r.id == room.id && r.pinCode == room.pinCode
    ensures r.name == room.name && r.createdAt == room.createdAt && r.decodeError == room.decodeError
  {
    room.(votings := room.votings[key := Vote(value, at)])
  }

  /** Voting again for the same player leaves one vote entry, holding the
      latest value: the second write replaces the first. */
  lemma RecordVoteTwice(room: Room, key: string, first: VoteValue, second: VoteValue, t1: nat, t2: nat)
    ensures RecordVote(RecordVote(room, key, first, t1), key, second, t2) == RecordVote(room, key, second, t2)
    ensures |RecordVote(RecordVote(room, key, first, t1), key, second, t2).votings.Keys| == |(room.votings.Keys + {key})|
  {
    var a := RecordVote(RecordVote(room, key, first, t1), key, second, t2);
    var b := RecordVote(room, key, second, t2);
    assert a.votings == b.votings;
  }

  /** An id the supply has handed out before `nextId` was reached: the
      numeral of a number below `nextId` (so never the empty string, which
      `Doc("")` refuses). */
  ghost predicate Issued(id: string, nextId: nat) {
    AllDigits(id) && id == Decimal(ParseDecimal(id)) && ParseDecimal(id) < nextId
  }

  /** The players of one room: issued ids, all distinct, joined before `clock`,
      and kept in strictly increasing join order. */
  ghost predicate PlayersOk(players: seq<Player>, nextId: nat, clock: nat) {
    && (forall k :: 0 <= k < |players| ==> Issued(players[k].id, nextId) && players[k].joinedAt < clock)
    && (forall k, l :: 0 <= k < l < |players| ==> players[k].id != players[l].id)
    && (forall k, l :: 0 <= k < l < |players| ==> players[k].joinedAt < players[l].joinedAt)
  }

  /** The store invariant: issued, distinct room ids and well-kept player lists. */
  ghost predicate StoreOk(rooms: seq<Room>, nextId: nat, clock: nat) {
    && (forall i :: 0 <= i < |rooms| ==> Issued(rooms[i].id, nextId) && PlayersOk(rooms[i].players, nextId, clock))
    && (forall i, j :: 0 <= i < j < |rooms| ==> rooms[i].id != rooms[j].id)
  }

  /** Every vote of every room belongs to a player of that room. The votes
      listing needs it (it reads the voter's name); registering a vote keeps it. */
  ghost predicate VotesHavePlayers(rooms: seq<Room>) {
    forall i, key :: 0 <= i < |rooms| && key in rooms[i].votings ==> HasPlayer(rooms[i].players, key)
  }

  /** The next id of the supply was not handed out before. */
  lemma FreshIdNotIssued(id: string, nextId: nat)
    requires Issued(id, nextId)
    ensures id != Decimal(nextId) && Issued(id, nextId + 1)
  {
    ParseDecimalOfDecimal(nextId);
  }

  lemma IssuedFresh(nextId: nat)
    ensures Issued(Decimal(nextId), nextId + 1)
  {
    ParseDecimalOfDecimal(nextId);
  }

  lemma PlayersOkAdvance(players: seq<Player>, nextId: nat, clock: nat)
    requires PlayersOk(players, nextId, clock)
    ensures PlayersOk(players, nextId + 1, clock + 1)
  {
    forall k | 0 <= k < |players| ensures Issued(players[k].id, nextId + 1) {
      FreshIdNotIssued(players[k].id, nextId);
    }
  }

  /** Appending a player with the next id and the current time keeps the
      player list in order, and the new id is not one of the room's. */
  lemma {:induction false} AppendPlayerOk(players: seq<Player>, nextId: nat, clock: nat, name: string)
    requires PlayersOk(players, nextId, clock)
    ensures PlayersOk(players + [Player(Decimal(nextId), name, clock, None)], nextId + 1, clock + 1)
    ensures !HasPlayer(players, Decimal(nextId))
  {
    var p := Player(Decimal(nextId), name, clock, None);
    var ps := players + [p];
    PlayersOkAdvance(players, nextId, clock);
    IssuedFresh(nextId);
    forall k | 0 <= k < |players| ensures players[k].id != p.id {
      FreshIdNotIssued(players[k].id, nextId);
    }
    assert forall k :: 0 <= k < |players| ==> ps[k] == players[k];
  }

  /** Any step of the id supply and clock keeps the invariant of the rooms it does not touch. */
  lemma {:induction false} StoreOkAdvance(rooms: seq<Room>, nextId: nat, clock: nat)
    requires StoreOk(rooms, nextId, clock)
    ensures StoreOk(rooms, nextId + 1, clock + 1)
  {
    forall i | 0 <= i < |rooms|
      ensures Issued(rooms[i].id, nextId + 1) && PlayersOk(rooms[i].players, nextId + 1, clock + 1)
    {
      FreshIdNotIssued(rooms[i].id, nextId);
      PlayersOkAdvance(rooms[i].players, nextId, clock);
    }
  }

  /** A room appended with the next id keeps the invariant, and its id is new. */
  lemma {:induction false} AppendRoomOk(rooms: seq<Room>, nextId: nat, clock: nat, room: Room)
    requires StoreOk(rooms, nextId, clock)
    requires room.id == Decimal(nextId) && room.players == []
    ensures StoreOk(rooms + [room], nextId + 1, clock + 1)
    ensures forall j :: 0 <= j < |rooms| ==> rooms[j].id != room.id
  {
    StoreOkAdvance(rooms, nextId, clock);
    IssuedFresh(nextId);
    forall j | 0 <= j < |rooms| ensures rooms[j].id != room.id {
      FreshIdNotIssued(rooms[j].id, nextId);
    }
    var rs := rooms + [room];
    assert forall j :: 0 <= j < |rooms| ==> rs[j] == rooms[j];
  }

  /** Adding a player with the next id and the current time to one room keeps
      the store invariant. */
  lemma {:induction false} AddPlayerOk(rooms: seq<Room>, nextId: nat, clock: nat, i: nat, name: string)
    requires StoreOk(rooms, nextId, clock) && i < |rooms|
    ensures StoreOk(rooms[i := rooms[i].(players := rooms[i].players + [Player(Decimal(nextId), name, clock, None)])],
                    nextId + 1, clock + 1)
  {
    var rs := rooms[i := rooms[i].(players := rooms[i].players + [Player(Decimal(nextId), name, clock, None)])];
    AppendPlayerOk(rooms[i].players, nextId, clock, name);
    StoreOkAdvance(rooms, nextId, clock);
    assert forall j :: 0 <= j < |rs| ==> rs[j].id == rooms[j].id;
    assert forall j :: 0 <= j < |rs| && j != i ==> rs[j] == rooms[j];
  }

  /** Adding a player never takes a vote's player away. */
  lemma {:induction false} AddPlayerKeepsVoters(rooms: seq<Room>, i: nat, p: Player)
    requires i < |rooms|
    ensures VotesHavePlayers(rooms) ==> VotesHavePlayers(rooms[i := rooms[i].(players := rooms[i].players + [p])])
  {
    if !VotesHavePlayers(rooms) {
      return;
    }
    var rs := rooms[i := rooms[i].(players := rooms[i].players + [p])];
    forall j, key | 0 <= j < |rs| && key in rs[j].votings
      ensures HasPlayer(rs[j].players, key)
    {
      if j == i {
        var k := FindPlayer(rooms[i].players, key).value;
        assert rs[i].players[k].id == key;
      } else {
        assert rs[j] == rooms[j];
      }
    }
  }

  /** Recording a vote at the current time keeps the store invariant as the clock ticks. */
  lemma {:induction false} SetVoteOk(rooms: seq<Room>, nextId: nat, clock: nat, i: nat, key: string, value: VoteValue)
    requires StoreOk(rooms, nextId, clock) && i < |rooms|
    ensures StoreOk(rooms[i := RecordVote(rooms[i], key, value, clock)], nextId, clock + 1)
  {
    var rs := rooms[i := RecordVote(rooms[i], key, value, clock)];
    assert forall j :: 0 <= j < |rs| ==> rs[j].players == rooms[j].players && rs[j].id == rooms[j].id;
    forall j | 0 <= j < |rs| ensures PlayersOk(rs[j].players, nextId, clock + 1) {
      assert PlayersOk(rooms[j].players, nextId, clock);
    }
  }

  /** A vote recorded for a player of the room keeps every vote tied to a player. */
  lemma {:induction false} SetVoteKeepsVoters(rooms: seq<Room>, i: nat, key: string, value: VoteValue, at: nat)
    requires i < |rooms|
    ensures VotesHavePlayers(rooms) && HasPlayer(rooms[i].players, key) ==>
              VotesHavePlayers(rooms[i := RecordVote(rooms[i], key, value, at)])
  {
    if !(VotesHavePlayers(rooms) && HasPlayer(rooms[i].players, key)) {
      return;
    }
    var rs := rooms[i := RecordVote(rooms[i], key, value, at)];
    forall j, k | 0 <= j < |rs| && k in rs[j].votings
      ensures HasPlayer(rs[j].players, k)
    {
      if j != i {
        assert rs[j] == rooms[j];
      }
    }
  }

  /** The document store. */
  class Store {
    var rooms: seq<Room>
    var nextId: nat
    var clock: nat

    ghost predicate Valid()
      reads this
    {
      StoreOk(rooms, nextId, clock)
    }

    constructor ()
      ensures Valid() && VotesHavePlayers(rooms)
      ensures rooms == [] && nextId == 0 && clock == 0
    {
      rooms := [];
      nextId := 0;
      clock := 0;
    }

    /** `Collection("rooms").Add(...)` / `NewDoc().Set(...)`: a new room
        document with a fresh id, the given fields and a server timestamp. */
    method AddRoom(name: string, pinCode: Option<string>) returns (id: string)
      requires Valid()
      modifies this
      ensures Valid()
      ensures VotesHavePlayers(old(rooms)) ==> VotesHavePlayers(rooms)
      ensures rooms == old(rooms) + [Room(id, name, pinCode, old(clock), None, [], map[])]
      ensures forall j :: 0 <= j < |old(rooms)| ==> old(rooms)[j].id != id
      ensures nextId == old(nextId) + 1 && clock == old(clock) + 1
    {
      id := Decimal(nextId);
      var room := Room(id, name, pinCode, clock, None, [], map[]);
      AppendRoomOk(rooms, nextId, clock, room);
      rooms := rooms + [room];
      nextId := nextId + 1;
      clock := clock + 1;
    }

    /** `Doc(roomId).Collection("players").Add(...)`: a new player in room `i`
        with a fresh id, the given name and a server timestamp. */
    method AddPlayer(i: nat, name: string) returns (id: string)
      requires Valid() && i < |rooms|
      modifies this
      ensures Valid()
      ensures VotesHavePlayers(old(rooms)) ==> VotesHavePlayers(rooms)
      ensures rooms == old(rooms)[i := old(rooms)[i].(players := old(rooms)[i].players + [Player(id, name, old(clock), None)])]
      ensures !HasPlayer(old(rooms)[i].players, id)
      ensures nextId == old(nextId) + 1 && clock == old(clock) + 1
    {
      id := Decimal(nextId);
      var p := Player(id, name, clock, None);
      AppendPlayerOk(rooms[i].players, nextId, clock, name);
      AddPlayerOk(rooms, nextId, clock, i, name);
      AddPlayerKeepsVoters(rooms, i, p);
      rooms := rooms[i := rooms[i].(players := rooms[i].players + [p])];
      nextId := nextId + 1;
      clock := clock + 1;
    }

    /** `Doc(playerId).Set({vote, timestamp}, MergeAll)` in room `i`: the vote
        document keyed by `key` is created or overwritten. */
    method SetVote(i: nat, key: string, value: VoteValue)
      requires Valid() && i < |rooms|
      modifies this
      ensures Valid()
      ensures VotesHavePlayers(old(rooms)) && HasPlayer(old(rooms)[i].players, key) ==> VotesHavePlayers(rooms)
      ensures rooms == old(rooms)[i := RecordVote(old(rooms)[i], key, value, old(clock))]
      ensures nextId == old(nextId) && clock == old(clock) + 1
    {
      SetVoteOk(rooms, nextId, clock, i, key, value);
      SetVoteKeepsVoters(rooms, i, key, value, clock);
      rooms := rooms[i := RecordVote(rooms[i], key, value, clock)];
      clock := clock + 1;
    }

    /** A committed batch of deletes of the vote documents `keys` in room `i`. */
    method DeleteVotes(i: nat, keys: set<string>)
      requires Valid() && i < |rooms|
      modifies this
      ensures Valid()
      ensures VotesHavePlayers(old(rooms)) ==> VotesHavePlayers(rooms)
      ensures rooms == old(rooms)[i := old(rooms)[i].(votings := old(rooms)[i].votings - keys)]
      ensures nextId == old(nextId) && clock == old(clock)
    {
      var room := rooms[i];
      ghost var rs := rooms;
      rooms := rooms[i := room.(votings := room.votings - keys)];
      assert forall j :: 0 <= j < |rooms| ==> rooms[j].players == rs[j].players && rooms[j].id == rs[j].id;
    }
  }
}
