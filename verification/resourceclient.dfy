/** GET requests to the Stackdriver API with retries (`resource`) and the
    status message `testDatasource` derives from one of them. */
module ResourceClient {
  import opened Runtime

  /** A successful HTTP reply: status, status text, and the body's lists of
      objects by property name. */
  datatype Reply = Reply(status: int, statusText: string, data: map<string, seq<Props>>)

  /** The backend as seen by `resource`: what the `n`-th request (counting
      from 0) for a URL yields. A rejection is an `Err`. */
  type Server = (string, nat) -> Result<Reply, Thrown>

  /** The number of retries `resource` is called with by default. */
  const DefaultRetries := 1

  /** What `resource(path, maxRetries)` settles to when its first request is
      the `attempt`-th one: the first reply, or, on a rejection, a retry with
      one retry fewer while any are left, the last rejection otherwise. */
  function ResourceOutcome(url: string, maxRetries: int, server: Server, attempt: nat): (r: Result<Reply, Thrown>)
    ensures server(url, attempt).Ok? || maxRetries <= 0 ==> r == server(url, attempt)
    ensures exists k :: attempt <= k <= attempt + (if maxRetries > 0 then maxRetries else 0) && r == server(url, k)
    ensures r.Err? ==> forall k :: attempt <= k <= attempt + (if maxRetries > 0 then maxRetries else 0) ==> server(url, k).Err?
    decreases if maxRetries > 0 then maxRetries else 0
  {
    var first := server(url, attempt);
    if first.Ok? || maxRetries <= 0 then first
    else ResourceOutcome(url, maxRetries - 1, server, attempt + 1)
  }

  /** How many requests that takes. */
  function ResourceAttempts(url: string, maxRetries: int, server: Server, attempt: nat): (n: nat)
    ensures n >= 1
    decreases if maxRetries > 0 then maxRetries else 0
  {
    var first := server(url, attempt);
    if first.Ok? || maxRetries <= 0 then 1
    else 1 + ResourceAttempts(url, maxRetries - 1, server, attempt + 1)
  }

  /** `resource(path, n)` makes at least one and at most `n + 1` requests
      (one when `n` is not positive); every request before the last was
      rejected; the outcome is what the last one yielded; and a rejection is
      passed on only after all `n + 1` requests were rejected. */
  lemma {:induction false} ResourceOutcomeIsLastAttempt(url: string, maxRetries: int, server: Server, attempt: nat)
    ensures var n := ResourceAttempts(url, maxRetries, server, attempt);
            && 1 <= n <= (if maxRetries > 0 then maxRetries else 0) + 1
            && (forall k :: attempt <= k < attempt + n - 1 ==> server(url, k).Err?)
            && ResourceOutcome(url, maxRetries, server, attempt) == server(url, attempt + n - 1)
            && (ResourceOutcome(url, maxRetries, server, attempt).Err? ==>
                  n == (if maxRetries > 0 then maxRetries else 0) + 1)
    decreases if maxRetries > 0 then maxRetries else 0
  {
    if server(url, attempt).Err? && maxRetries > 0 {
      ResourceOutcomeIsLastAttempt(url, maxRetries - 1, server, attempt + 1);
    }
  }

  /** If any of the `n + 1` allowed requests is answered, `resource` resolves,
      with the first answer. */
  lemma {:induction false} ResourceFirstReply(url: string, maxRetries: int, server: Server, attempt: nat, k: nat)
    requires attempt <= k <= attempt + (if maxRetries > 0 then maxRetries else 0)
    requires server(url, k).Ok?
    requires forall m :: attempt <= m < k ==> server(url, m).Err?
    ensures ResourceOutcome(url, maxRetries, server, attempt) == server(url, k)
    decreases if maxRetries > 0 then maxRetries else 0
  {
    if k > attempt {
      ResourceFirstReply(url, maxRetries - 1, server, attempt + 1, k);
    }
  }

  /** `resource`: GET the base URL followed by the path; on a rejection retry
      while the retry count is positive, counting it down. `attempts` is the
      number of requests made. */
  method Resource(baseUrl: string, path: string, maxRetries: int, server: Server)
    returns (r: Result<Reply, Thrown>, attempts: nat)
    ensures r == ResourceOutcome(baseUrl + path, maxRetries, server, 0)
    ensures attempts == ResourceAttempts(baseUrl + path, maxRetries, server, 0)
  {
    var url := baseUrl + path;
    var left := maxRetries;
    r := server(url, 0);
    attempts := 1;
    while r.Err? && left > 0
      invariant attempts >= 1
      invariant r == server(url, attempts - 1)
      invariant ResourceOutcome(url, maxRetries, server, 0) == ResourceOutcome(url, left, server, attempts - 1)
      invariant ResourceAttempts(url, maxRetries, server, 0) == attempts - 1 + ResourceAttempts(url, left, server, attempts - 1)
      decreases if left > 0 then left else 0
    {
      left := left - 1;
      r := server(url, attempts);
      attempts := attempts + 1;
    }
  }

  // ---------------------------------------------------------------------
  // testDatasource

  datatype TestResult = TestResult(status: string, message: string)

  const DefaultErrorMessage := "Cannot connect to Stackdriver API"
  const SuccessMessage := "Successfully queried the Stackdriver API."

  /** The message part built from an HTTP error body: only when the body has
      a non-zero code, then `": <code>. <message>"`, a missing message
      printing as "undefined". */
  function ErrorDetail(body: Option<ErrorBody>): (r: string)
    ensures body.None? || body.value.code == 0 <==> r == ""
  {
    if body.Some? && body.value.code != 0 then
      ": " + NumberToString(body.value.code) + ". "
      + (if body.value.message.Some? then body.value.message.value else "undefined")
    else ""
  }

  /** The status and message `testDatasource` reports for the outcome of its
      request; it never throws. */
  function TestMessage(outcome: Result<Reply, Thrown>): (r: TestResult)
    ensures r.status == "success" || r.status == "error"
    ensures r.status == "success" <==> outcome.Ok? && outcome.value.status == 200
    ensures r.status == "success" ==> r.message == SuccessMessage
    ensures outcome.Ok? && outcome.value.status != 200 ==>
              r.message == (if outcome.value.statusText != "" then outcome.value.statusText else DefaultErrorMessage)
    ensures outcome.Err? && outcome.error.StringError? ==> r.message == outcome.error.text
    ensures outcome.Err? && !outcome.error.StringError? ==>
              var head := "Stackdriver: "
                + (if outcome.error.HttpError? && outcome.error.statusText != "" then outcome.error.statusText else DefaultErrorMessage);
              && |head| <= |r.message| && r.message[..|head|] == head
              && (outcome.error.HttpError? ==> r.message == head + ErrorDetail(outcome.error.body))
              && (outcome.error.TypeError? ==> r.message == head)
  {
    match outcome
    case Ok(reply) =>
      if reply.status == 200 then TestResult("success", SuccessMessage)
      else TestResult("error", if reply.statusText != "" then reply.statusText else DefaultErrorMessage)
    case Err(StringError(text)) => TestResult("error", text)
    case Err(TypeError) => TestResult("error", "Stackdriver: " + DefaultErrorMessage)
    case Err(HttpError(statusText, body)) =>
      TestResult("error", "Stackdriver: " + (if statusText != "" then statusText else DefaultErrorMessage) + ErrorDetail(body))
  }

  /** `testDatasource` reports success exactly when the first answered of its
      two requests (one retry) is a 200; two rejections are an error. */
  lemma {:induction false} TestSucceedsIffFirstAnswerIs200(url: string, server: Server)
    ensures TestMessage(ResourceOutcome(url, DefaultRetries, server, 0)).status == "success"
            <==> (if server(url, 0).Ok? then server(url, 0).value.status == 200
                  else server(url, 1).Ok? && server(url, 1).value.status == 200)
  {
    if server(url, 0).Err? {
      assert ResourceOutcome(url, DefaultRetries, server, 0) == ResourceOutcome(url, 0, server, 1);
    }
  }

  /** An HTTP error without status text, with error code 404 and no message. */
  lemma NotFoundMessage()
    ensures TestMessage(Err(HttpError("", Some(ErrorBody(404, None))))).message
            == "Stackdriver: " + DefaultErrorMessage + ": 404. undefined"
  {
    assert NumberToString(404) == "404";
    var detail := ErrorDetail(Some(ErrorBody(404, None)));
    assert detail == ": 404. undefined";
    assert TestMessage(Err(HttpError("", Some(ErrorBody(404, None))))).message
           == "Stackdriver: " + DefaultErrorMessage + detail;
  }
}
