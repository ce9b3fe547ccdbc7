# scrumpoker-run.api — a Dafny model of the request core

scrumpoker-run.api is the backend of a planning-poker tool. A client creates
a *room*, which gets a six-digit *pincode*. Other people join it as *players*
and cast *votes*, and anyone may reset the votes or list them. The service is
a set of HTTP handlers over a hosted document database.

This project models what those handlers decide:

- the request validators of the current packages, which trim white space, and
  of the older `models/rooms` revisions, which do not;
- the error-sending helper `SendError`, in both revisions;
- the voting endpoints (`registerVote`, `resetVotes`, `getVotes`);
- the room endpoints (`newRoom`, `joinRoom`, `getPlayers`), in the current
  pincode-addressed revision and in the older id-addressed one.

How the model is built:

- **The database** is the class `DocumentStore.Store`. Rooms are a sequence
  in query order, so "the first room with this pincode" is well defined.
  Each room holds its players in join order and its votes in a map keyed by
  player id. New document ids are the numerals of a counter that only grows.
  Server timestamps come from a clock that ticks on each timestamped write.
  `Store.Valid()` is the invariant every handler keeps: issued and distinct
  ids, and players in strictly increasing timestamp order.
- **Store calls that can fail** (a query, a write, a listing, a commit) are
  parameters of the handler: a flag, or the error the call reports.
- **A document whose fields do not decode** carries a `decodeError`.
- **The body parser's outcome** is a `Body` value.
- **The reply** is a `Reply` value: a JSON payload, a bare status, or the
  error body that `SendError` writes.
- **The `SenderContext`** of `SendError` is the class `Utils.Sender`. It
  answers with fixed replies and records every call in `log`.
- **`strings.TrimSpace`** and **`fmt.Sprintf("%06d", n)`** are modelled on
  `seq<char>`. Each has a reference definition: `IsBlank` for trimming, and
  decimal parsing as the inverse of formatting.

Three points of the code are worth stating, because a reader may expect
otherwise; the model follows the code:

- The join request has an optional `host` flag
  (internal/models/rooms/rooms.go:42), but `joinRoom` neither stores nor
  checks it and always answers `host: false`.
- `rd.Intn(999999)` (internal/controllers/rooms/rooms.go:45) draws from
  0–999998, so the pin is in 000000–999998.
- The older `getPlayers` queries without `OrderBy`
  (controllers/rooms/rooms.go:139).

## Model

| member | source | states |
|---|---|---|
| GoStrings.TrimLeft | internal/models/rooms/rooms.go:23 | the result is a suffix of the input; what was dropped is all white space; the result is empty or starts with a non-space |
| GoStrings.TrimRight | internal/models/rooms/rooms.go:23 | the result is a prefix; the dropped tail is white space; the result is empty or ends with a non-space |
| GoStrings.TrimSpaceEmptyIffBlank | internal/models/rooms/rooms.go:23 | `len(strings.TrimSpace(s)) == 0` holds exactly when every character of s is white space (both directions) |
| GoStrings.IsSpace | internal/models/rooms/rooms.go:23 | within Latin-1, exactly '\t', '\n', '\v', '\f', '\r', ' ', U+0085 and U+00A0 are white space, as `unicode.IsSpace` documents |
| GoStrings.TrimSpace | internal/models/rooms/rooms.go:23 | `strings.TrimSpace` returns at most the input, and a non-empty result neither starts nor ends with white space |
| GoStrings.TrimSpaceIsInnerSlice | internal/models/rooms/rooms.go:23 | TrimSpace returns a contiguous slice of its input, and what it drops before and after the slice is all white space |
| GoFormat.Decimal | internal/controllers/rooms/rooms.go:45 | `%d` gives a non-empty digit string with no leading zero |
| GoFormat.ParseDecimalOfDecimal | internal/controllers/rooms/rooms.go:45 | parsing the `%d` numeral gives back the number |
| GoFormat.DecimalInjective | internal/controllers/rooms/rooms.go:45 | distinct numbers have distinct numerals |
| GoFormat.ParseDecimalIgnoresLeadingZeros | internal/controllers/rooms/rooms.go:45 | zero padding does not change the value of a numeral |
| GoFormat.DecimalBelowMillion | internal/controllers/rooms/rooms.go:45 | for every width w >= 1, a number below 10^w has at most w digits |
| GoFormat.Sprintf06d | internal/controllers/rooms/rooms.go:45 | `%06d` gives all digits, denotes n, and has exactly six characters below one million |
| GoFormat.PinInjective | internal/controllers/rooms/rooms.go:43-45 | different draws give different pins |
| RoomModels.ValidateRoomNew | internal/models/rooms/rooms.go:22-28 | fails with "the name of the room is required" exactly when the name is blank, otherwise nil |
| RoomModels.ValidateRoomJoin | internal/models/rooms/rooms.go:45-51 | fails with "the name of the player is required" exactly when the player name is blank |
| RoomModels.ValidateRoomTopic | internal/models/rooms/rooms.go:64-70 | fails exactly when the topic is blank, and then with the player-name message |
| RoomModels.ValidateRenameUser | internal/models/rooms/rooms.go:76-82 | fails with the player-name message exactly when the new name is blank |
| RoomModels.RoomNameExamples | internal/models/rooms/rooms.go:22-28 | "" and "   " are refused with the room-name message; " Room " passes |
| RoomModels.JoinIgnoresHost | internal/models/rooms/rooms.go:40-51 | the host flag does not affect join validation |
| VotingModels.ValidateRegisterVote | internal/models/votings/votings.go:21-26 | fails with "the player_id field is required" exactly when the player id is blank |
| VotingModels.VoteValueNotInspected | internal/models/votings/votings.go:21-26 | changing the vote value never changes the validation result |
| LegacyRoomModels.ValidateRoomNew | models/rooms/rooms.go:9-15 | fails with the room-name message exactly when the name is ""; room.go:9-15 and new_room.go:9-15 are the same code |
| LegacyRoomModels.ValidateRoomJoin | models/rooms/rooms.go:25-31 | fails with the player-name message exactly when the player name is "" |
| LegacyRoomModels.ValidateRoomJoinById | models/rooms/room.go:26-35 | an empty name gives the player-name message (also when both are empty); otherwise an empty room id gives "the room_id is required"; otherwise nil |
| LegacyRoomModels.WhitespaceNameAccepted | models/rooms/rooms.go:9-31 | a non-empty name of only white space is accepted, both as a room name and as a player name |
| LegacyRoomModels.TrimmingIsStricter | models/rooms/rooms.go:9-31 | every room or player name the old validators refuse the current ones refuse too; "   " separates them in both |
| Utils.Sender.constructor | internal/utils/error.go:8-11 | a sender with the given replies and no calls yet |
| Utils.Sender.JSON | internal/utils/error.go:8-11 | records one JSON call with the body and answers its fixed reply |
| Utils.Sender.SendStatus | internal/utils/error.go:8-11 | records one status call and answers its fixed reply |
| Utils.SendError | internal/utils/error.go:13-32 | a nil error gives "error property cannot be nil" before the sender is checked, with no call made; a nil sender gives "sender property cannot be nil"; otherwise JSON is called with {code, message}; if JSON fails, its error is returned and SendStatus is not called; otherwise SendStatus(code) follows and its result is returned (nil when both succeed) |
| LegacyUtils.SendError | utils/error.go:5-17 | JSON with {code, message}, stopping with its error; otherwise SendStatus with its result |
| DocumentStore.FindRoomByPin | internal/controllers/votings/votings.go:45-50 | the first room whose pincode matches, or None exactly when no room matches |
| DocumentStore.FindRoomById | controllers/rooms/rooms.go:82-86 | a room with that id, or None exactly when there is none |
| DocumentStore.FindPlayer | internal/controllers/votings/votings.go:56-60 | a player with that id, or None exactly when the room has none |
| DocumentStore.FirstUndecodable | internal/controllers/rooms/rooms.go:153-157 | the first player document that fails to decode, or None exactly when all decode |
| DocumentStore.PlayerName | internal/controllers/votings/votings.go:139-140 | the name of a player of the room with that id |
| DocumentStore.RecordVote | internal/controllers/votings/votings.go:62-65 | the vote under the key is created or replaced with the new value and time; other votes, players, id, pin, name, creation time and decodability are kept |
| DocumentStore.RecordVoteTwice | internal/controllers/votings/votings.go:62-65 | voting twice is the same as voting once with the latest value; one entry remains |
| DocumentStore.FreshIdNotIssued | internal/controllers/rooms/rooms.go:47-51 | the next generated id differs from every id issued before |
| DocumentStore.IssuedFresh | internal/controllers/rooms/rooms.go:47-51 | the next generated id counts as issued from then on |
| DocumentStore.PlayersOkAdvance | internal/controllers/rooms/rooms.go:108-111 | a room's player invariant survives any id or clock step |
| DocumentStore.AppendPlayerOk | internal/controllers/rooms/rooms.go:108-111 | appending a player with the next id and the current time keeps ids distinct and timestamps strictly increasing |
| DocumentStore.StoreOkAdvance | internal/controllers/rooms/rooms.go:47-51 | the store invariant survives any id or clock step |
| DocumentStore.AppendRoomOk | internal/controllers/rooms/rooms.go:47-51 | appending a room with the next id keeps the store invariant, and its id is new |
| DocumentStore.AddPlayerOk | internal/controllers/rooms/rooms.go:108-111 | adding a player with the next id and the current time to one room keeps the store invariant |
| DocumentStore.AddPlayerKeepsVoters | internal/controllers/rooms/rooms.go:108-111 | adding a player keeps every vote tied to a player of its room |
| DocumentStore.SetVoteOk | internal/controllers/votings/votings.go:62-65 | recording a vote at the current time keeps the store invariant as the clock ticks |
| DocumentStore.SetVoteKeepsVoters | internal/controllers/votings/votings.go:56-65 | a vote keyed by a player of the room keeps every vote tied to a player |
| DocumentStore.Store.constructor | internal/controllers/rooms/rooms.go:47-51 | an empty store that satisfies the invariant |
| DocumentStore.Store.AddRoom | internal/controllers/rooms/rooms.go:47-51 | appends exactly one room with a new id, the given fields, the current time, and no players or votes; keeps the invariant |
| DocumentStore.Store.AddPlayer | internal/controllers/rooms/rooms.go:108-111 | appends exactly one player with a new id and the current time to room i; rooms other than i do not change |
| DocumentStore.Store.SetVote | internal/controllers/votings/votings.go:62-65 | room i becomes RecordVote of it at the current time; rooms other than i do not change |
| DocumentStore.Store.DeleteVotes | internal/controllers/votings/votings.go:96-101 | the given vote keys are removed from room i; nothing else changes |
| VotingsController.VoteViewOf | internal/controllers/votings/votings.go:134-140 | the listing entry has the vote key as player id, the stored value and time, and the name of a player with that id |
| VotingsController.RegisterVote | internal/controllers/votings/votings.go:27-71 | checks in order: a parse error gives 500; a blank id gives 400; no room (first pincode match) gives 404 "room not found"; an unknown player gives 404 "player not found"; a failed write gives 500 "an error occurred while registering the vote"; otherwise 200 and exactly that room's vote is upserted; every non-200 leaves the store unchanged |
| VotingsController.ResetVotes | internal/controllers/votings/votings.go:82-104 | no room gives 404 with nothing changed; otherwise 200, and the room's votes are emptied unless the listing or the commit failed, in which case nothing changes; players and other rooms never change |
| VotingsController.GetVotes | internal/controllers/votings/votings.go:116-146 | no room gives 404; a failed listing gives []; otherwise one entry per vote of the first matching room, each joined to its player's name |
| VotingsController.ListsVotesButStep | internal/controllers/votings/votings.go:130-143 | appending the entry of a not-yet-listed vote extends a partial listing by exactly that vote |
| VotingsController.ListsVotesButNone | internal/controllers/votings/votings.go:130-145 | a partial listing with nothing pending and one entry per vote is the complete listing |
| VotingsController.ListVotes | internal/controllers/votings/votings.go:130-143 | the loop produces as many entries as the room has votes, each a correct entry, with every vote covered |
| RoomsController.ViewOf | internal/controllers/rooms/rooms.go:152-159 | the player record has the document key as id, the stored name and time, and host false |
| RoomsController.NewRoom | internal/controllers/rooms/rooms.go:28-61 | a parse error gives 500; a blank name gives 400; a failed add gives 500 with its message (no room added in any of these); otherwise the pin is six digits denoting the draw, exactly one room with the request name, that pin and a new id is appended, and the reply carries the id and pin |
| RoomsController.JoinRoom | internal/controllers/rooms/rooms.go:74-122 | validation before lookup (500, 400); no room gives 404; an undecodable room gives 500 "unable to retrieve room information"; a failed add gives 500; otherwise exactly one player with the request name and a new id joins the first matching room, and the reply is that room (id set), the player id, the name and host false |
| RoomsController.GetPlayers | internal/controllers/rooms/rooms.go:132-162 | no room gives 404; a failed listing gives 500; the first undecodable player gives 500 with its error, and no partial list is sent; otherwise every player's record in order, with strictly ascending join times and distinct ids |
| RoomsController.AddRoomPinLookup | internal/controllers/rooms/rooms.go:92 | in the model's query order, where a new room comes last: a pin that already had a room keeps finding it, so a colliding new room is shadowed; a pin no room had finds the new room when it carries that pin, and nothing otherwise |
| LegacyRoomsController.LegacyViewOf | controllers/rooms/rooms.go:144-151 | the old player record has the document key as id, the name and the join time |
| LegacyRoomsController.LegacyViews | controllers/rooms/rooms.go:144-151 | one record per player, in stored order |
| LegacyRoomsController.InOrderIsListing | controllers/rooms/rooms.go:144-151 | the records in stored order are a listing in the sense of `IsLegacyListing` |
| LegacyRoomsController.NewRoom | controllers/rooms/rooms.go:24-52 | a parse error gives 500; an empty name gives 400; a write error also gives 400; otherwise one room with no pincode is appended, and its id (which finds it) is returned |
| LegacyRoomsController.NewRoomFoundById | controllers/rooms/rooms.go:39-51 | a room appended with a new id is the room that id finds |
| LegacyRoomsController.JoinRoom | controllers/rooms/rooms.go:65-111 | 500 or 400 from the body first; no room with that id gives 404; a write error gives 400; otherwise one player is appended and the reply has the path id, the stored room name, the new player id and the request name |
| LegacyRoomsController.GetPlayers | controllers/rooms/rooms.go:121-154 | an empty id gives 400 "the room_id is required" before any store read; then 404, 500 on a failed listing, 500 with the error of some undecodable player; otherwise the same records as the stored players, each as often as it occurs (a multiset), and so one per player |

## Left out

- Firestore client, dependency injection, fiber routing, body parsing and
  JSON encoding, server start-up and the Swagger annotations: these are
  framework wiring. A parse failure is a `Body.Unparseable` input.
- The handlers ignore the result of `SendError`; a failed reply is not
  modelled, and each handler's outcome is the `Reply` it asks for.
- Random seeding from the clock: the draw `rd.Intn(999999)` is the parameter
  `n` of `RoomsController.NewRoom`, with `0 <= n < 999999`.
- Server timestamps are a counter; their wall-clock value is not modelled.
- Vote values are `float64`; they are an opaque type because they are only
  stored and copied.
- Concurrency: simultaneous requests and the atomicity of a batch are left
  to the database.
- Host uniqueness, topic setting, player rename and room GET-by-pin have no
  handlers in the modelled code; only their request types and validators are
  modelled. The `topic` field of a room is never written there and is left
  out of `RoomView`.
- Invalid UTF-8: `strings.TrimSpace` is modelled on characters, not bytes.
- rooms/rooms.go returns a constant string and is not part of this model.
- VotingsController.GetVotes: requires that every vote of the queried room
  belongs to a player of that room (`RoomVotesHavePlayers`). The source
  panics otherwise, in the type assertions at
  internal/controllers/votings/votings.go:136-140. Other rooms are not
  constrained, and every handler preserves `VotesHavePlayers` for all rooms.
- VotingsController.GetVotes: the order of the entries is not stated. The
  database returns vote documents by id, and the model's votes are a map.
- LegacyRoomsController.JoinRoom: the 500 "unable to retrieve room
  information" branch of controllers/rooms/rooms.go:88-92 is not modelled.
  The room is read into a map, which every stored document fits, so that
  decode cannot fail; the room's `decodeError` stands for the struct decode
  of the current handler and plays no part here.
- LegacyRoomsController.GetPlayers: the listing is stated up to order. The
  query has no `OrderBy`, and the database's document-id order is not
  modelled. For the same reason, when several player documents do not
  decode, the contract says only that the error of one of them is reported,
  not which.
- RoomsController.AddRoomPinLookup: a new room is placed last in the model's
  query order. The database returns same-pin rooms in the order of their
  random document ids, so there a colliding new room can come first and be
  the one `joinRoom` and `getPlayers` use.
- The document-id order of the database is not modelled in general. The
  order of the room sequence stands for the order a pincode query returns.
- Store failures are modelled only as the handlers observe them (a failed
  call). A failed write is assumed to store nothing.

## Findings

| source | as written | input that shows it | evidently intended | confidence | as-written member | corrected member |
|---|---|---|---|---|---|---|
| models/rooms/rooms.go:9-15 | `RoomNewRequest.Validate` refuses only `len(Name) == 0` | name "   ", which controllers/rooms/rooms_test.go:99-120 expects to be refused with 400 | a blank room name is refused, as the trimming check of internal/models/rooms/rooms.go:22-28 does | not executed; read from the code and its test | LegacyRoomModels.WhitespaceNameAccepted | RoomModels.ValidateRoomNew |
| models/rooms/rooms.go:25-31 | `RoomJoinRequest.Validate` refuses only `len(PlayerName) == 0` | player name "    ", which controllers/rooms/rooms_test.go:239-262 expects to be refused with 400 | a blank player name is refused, as internal/models/rooms/rooms.go:45-51 does | not executed; read from the code and its test | LegacyRoomModels.WhitespaceNameAccepted | RoomModels.ValidateRoomJoin |

The corrected validators are the ones of the current revision; the current
handlers of `RoomsController` use them, and `LegacyRoomModels.TrimmingIsStricter`
shows they refuse everything the older check refuses and also "   ". The
older handlers of `LegacyRoomsController` keep the check as written, since
they model that older code.
