/** Request and response types of internal/models/votings/votings.go. */
module VotingModels {
  import opened Common
  import opened GoStrings

  const PlayerIdRequired: string := "the player_id field is required"

  /** The `float64` a player votes: carried and stored, never computed with. */
  type VoteValue(==)

  datatype RegisterVoteRequest = RegisterVoteRequest(playerId: string, value: VoteValue)

  /** `votings.Vote` as listed by the votes endpoint. */
  datatype VoteView = VoteView(playerId: string, playerName: string, value: VoteValue, votedAt: nat)

  /** The player id is required once white space is trimmed; the vote value is
      never looked at, so every value passes. */
  function ValidateRegisterVote(body: RegisterVoteRequest): (err: Option<GoError>)
    ensures err == if IsBlank(body.playerId) then Some(GoError(PlayerIdRequired)) else None
  {
    TrimSpaceEmptyIffBlank(body.playerId);
    if |TrimSpace(body.playerId)| == 0 then Some(GoError(PlayerIdRequired)) else None
  }

  /** Two requests with the same player id validate alike, whatever their values. */
  lemma VoteValueNotInspected(body: RegisterVoteRequest, v: VoteValue)
    ensures ValidateRegisterVote(body.(value := v)) == ValidateRegisterVote(body)
  {
  }
}
