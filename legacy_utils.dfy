/** utils/error.go, the older `SendError` on a fiber context: the same two
    calls, without the nil checks. The context is a non-null `Sender` and the
    error a non-nil `GoError`, since nothing in the function checks either. */
module LegacyUtils {
  import opened Common
  import opened Utils

  method SendError(c: Sender, statusCode: int, err: GoError) returns (result: Option<GoError>)
    modifies c
    ensures c.jsonReply.Some? ==>
      && result == c.jsonReply
      && c.log == old(c.log) + [JsonCall(ErrorBody(statusCode, err.message))]
    ensures c.jsonReply.None? ==>
      && result == c.statusReply
      && c.log == old(c.log) + [JsonCall(ErrorBody(statusCode, err.message)), SendStatusCall(statusCode)]
  {
    var jsonErr := c.JSON(ErrorBody(statusCode, err.message));
    if jsonErr.Some? {
      return jsonErr;
    }
    var statusErr := c.SendStatus(statusCode);
    if statusErr.Some? {
      return statusErr;
    }
    return None;
  }
}
