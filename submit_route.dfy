/** The relay route (app/api/submit/route.ts): `POST` forwards the request body
    to the Apps Script in one request and translates the script's answer into
    `{success, message}` with an HTTP status. */
module SubmitRoute {
  import opened JsValues

  /** What the awaited `fetch(GOOGLE_SCRIPT_URL, ...)` followed by
      `response.json()` yields: the upstream HTTP status with the parsed body
      (or the error reading it), or the error the fetch rejects with. */
  datatype Upstream =
    | UpstreamResponse(httpStatus: int, json: Result<Json>)
    | FetchFailed(message: string)

  /** The body and status given to `NextResponse.json`. */
  datatype RelayReply = RelayReply(success: bool, message: string, status: int)

  /** The bodies sent upstream, and the reply to the form. */
  datatype Relay = Relay(attempts: seq<Json>, reply: RelayReply)

  const DefaultStatus := 200
  const ErrorStatus := 500
  const SuccessMessage := "Form submitted successfully"
  const UpstreamFallback := "Google Apps Script error"

  /** The catch block: every failure is answered with 500 and the error's message. */
  function FailureReply(message: string): RelayReply {
    RelayReply(false, message, ErrorStatus)
  }

  /** `result.status === 'success'` */
  predicate ReportsSuccess(result: Json) {
    result.JObj? && "status" in result.fields && result.fields["status"] == JStr("success")
  }

  /** The decision on the parsed upstream answer: success when its status is
      exactly "success", otherwise the error thrown with `result.message` or
      the fallback text; an answer that is not an object has no message, and
      a null answer throws the TypeError of reading its status. */
  function Translate(result: Json): (reply: RelayReply)
    ensures reply.success <==> ReportsSuccess(result)
    ensures reply.success ==> reply == RelayReply(true, SuccessMessage, DefaultStatus)
    ensures !reply.success ==> reply.status == ErrorStatus
    ensures result != JNull && !ReportsSuccess(result) ==>
      reply.message == MessageOr(GetProperty(result, "message").value, UpstreamFallback)
    ensures result == JNull ==> reply == FailureReply(GetProperty(JNull, "status").message)
    ensures !result.JObj? && result != JNull ==> reply == FailureReply(UpstreamFallback)
  {
    match GetProperty(result, "status")
    case Thrown(m) => FailureReply(m)
    case Ok(status) =>
      if status == Some(JStr("success")) then RelayReply(true, SuccessMessage, DefaultStatus)
      else FailureReply(MessageOr(GetProperty(result, "message").value, UpstreamFallback))
  }

  /** `POST(request)`, with `request.json()` given as `body` and the upstream
      call as `upstream`. */
  function Post(body: Result<Json>, upstream: Upstream): (r: Relay)
    ensures body.Thrown? ==> r == Relay([], FailureReply(body.message))
    ensures body.Ok? ==> r.attempts == [body.value]
    ensures r.reply.success <==> r.reply.status == DefaultStatus
    ensures r.reply.status == DefaultStatus || r.reply.status == ErrorStatus
    ensures r.reply.success <==>
      body.Ok? && upstream.UpstreamResponse? && upstream.json.Ok? && ReportsSuccess(upstream.json.value)
    ensures body.Ok? && upstream.FetchFailed? ==> r.reply == FailureReply(upstream.message)
    ensures body.Ok? && upstream.UpstreamResponse? && upstream.json.Thrown? ==>
      r.reply == FailureReply(upstream.json.message)
  {
    if body.Thrown? then Relay([], FailureReply(body.message))
    else
      var reply :=
        match upstream
        case FetchFailed(m) => FailureReply(m)
        case UpstreamResponse(_, Thrown(m)) => FailureReply(m)
        case UpstreamResponse(_, Ok(result)) => Translate(result);
      Relay([body.value], reply)
  }

  /** The upstream HTTP status is never consulted. */
  lemma UpstreamStatusIgnored(body: Result<Json>, status1: int, status2: int, json: Result<Json>)
    ensures Post(body, UpstreamResponse(status1, json)) == Post(body, UpstreamResponse(status2, json))
  {
  }

  /** An upstream error with a message passes that message on; an empty or
      missing message gives the fallback text. */
  lemma UpstreamErrorMessage(body: Json, status: int, fields: map<string, Json>)
    requires !ReportsSuccess(JObj(fields))
    ensures var reply := Post(Ok(body), UpstreamResponse(status, Ok(JObj(fields)))).reply;
      && !reply.success && reply.status == ErrorStatus
      && ("message" in fields && fields["message"].JStr? && fields["message"].s != "" ==>
            reply.message == fields["message"].s)
      && ("message" !in fields || fields["message"] == JStr("") ==> reply.message == UpstreamFallback)
  {
  }

  /** The body of the reply as the form parses it. */
  function ReplyBody(reply: RelayReply): Json {
    JObj(map["success" := JBool(reply.success), "message" := JStr(reply.message)])
  }
}
