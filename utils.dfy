/** internal/utils/error.go: `SendError` over the `SenderContext` interface,
    with the sender as an object that records the calls made on it. */
module Utils {
  import opened Common

  const ErrorIsNil: string := "error property cannot be nil"
  const SenderIsNil: string := "sender property cannot be nil"

  /** One call made on a sender. */
  datatype Call = JsonCall(body: ErrorBody) | SendStatusCall(statusCode: int)

  /** A `SenderContext` (a fiber context, or the test mock). What its two
      methods answer is fixed when it is made; every call is appended to `log`. */
  class Sender {
    const jsonReply: Option<GoError>
    const statusReply: Option<GoError>
    var log: seq<Call>

    constructor (jsonReply: Option<GoError>, statusReply: Option<GoError>)
      ensures this.jsonReply == jsonReply && this.statusReply == statusReply
      ensures log == []
    {
      this.jsonReply := jsonReply;
      this.statusReply := statusReply;
      log := [];
    }

    /** `JSON(body)`: writes the body and answers `jsonReply`. */
    method JSON(body: ErrorBody) returns (err: Option<GoError>)
      modifies this
      ensures log == old(log) + [JsonCall(body)]
      ensures err == jsonReply
    {
      log := log + [JsonCall(body)];
      err := jsonReply;
    }

    /** `SendStatus(statusCode)`: sets the status and answers `statusReply`. */
    method SendStatus(statusCode: int) returns (err: Option<GoError>)
      modifies this
      ensures log == old(log) + [SendStatusCall(statusCode)]
      ensures err == statusReply
    {
      log := log + [SendStatusCall(statusCode)];
      err := statusReply;
    }
  }

  /** Checks the error first and the sender second, then sends the error body
      and the status, stopping at the first call that fails and passing its
      error back unchanged. A null `c` is a nil interface; None is a nil error. */
  method SendError(c: Sender?, statusCode: int, err: Option<GoError>) returns (result: Option<GoError>)
    modifies c
    ensures err.None? ==> result == Some(GoError(ErrorIsNil))
    ensures err.None? && c != null ==> c.log == old(c.log)
    ensures err.Some? && c == null ==> result == Some(GoError(SenderIsNil))
    ensures err.Some? && c != null && c.jsonReply.Some? ==>
      && result == c.jsonReply
      && c.log == old(c.log) + [JsonCall(ErrorBody(statusCode, err.value.message))]
    ensures err.Some? && c != null && c.jsonReply.None? ==>
      && result == c.statusReply
      && c.log == old(c.log) + [JsonCall(ErrorBody(statusCode, err.value.message)), SendStatusCall(statusCode)]
  {
    if err.None? {
      return Some(GoError(ErrorIsNil));
    }
    if c == null {
      return Some(GoError(SenderIsNil));
    }
    var jsonErr := c.JSON(ErrorBody(statusCode, err.value.message));
    if jsonErr.Some? {
      return jsonErr;
    }
    var statusErr := c.SendStatus(statusCode);
    if statusErr.Some? {
      return statusErr;
    }
    return None;
  }

  /** The situations of utils/error_test.go, replayed against the contracts. */
  method SendErrorScenarios() {
    var ok := new Sender(None, None);
    var r := SendError(ok, 500, Some(GoError("test error")));
    assert r == None;
    assert ok.log == [JsonCall(ErrorBody(500, "test error")), SendStatusCall(500)];

    var unused := new Sender(None, None);
    r := SendError(unused, 500, None);
    assert r == Some(GoError("error property cannot be nil")) && unused.log == [];

    r := SendError(null, 500, None);
    assert r == Some(GoError("error property cannot be nil"));
    r := SendError(null, 500, Some(GoError("new error")));
    assert r == Some(GoError("sender property cannot be nil"));

    var badJson := new Sender(Some(GoError("error to generate JSON")), None);
    r := SendError(badJson, 500, Some(GoError("test error")));
    assert r == Some(GoError("error to generate JSON"));
    assert badJson.log == [JsonCall(ErrorBody(500, "test error"))];

    var badStatus := new Sender(None, Some(GoError("error to send status code")));
    r := SendError(badStatus, 500, Some(GoError("test error")));
    assert r == Some(GoError("error to send status code"));
    assert |badStatus.log| == 2;
  }
}
