/** The read side of the health package: the status code and body computed
    from a snapshot of the state, and the three response builders (the
    `http.Handler` method `ServeHTTP` and the two shttp handlers). A response
    is a plain record; the JSON body is the abstract `responseBody` object,
    not its text. */
module HealthRender {
  import opened Wrappers
  import opened HealthState

  const StatusOK: int := 200
  const StatusServiceUnavailable: int := 503
  const JsonContentType: string := "application/json"

  /** The Go struct `responseBody{Status, Reason}`. */
  datatype ResponseBody = ResponseBody(status: string, reason: string)

  /** The encoded JSON object: `status` is always present, `reason` is omitted
      when empty (`omitempty`). */
  datatype JsonBody = JsonBody(status: string, reason: Option<string>)

  /** A response body: the bytes `status + ": " + reason`, or a JSON object. */
  datatype Body = Text(text: string) | Json(json: JsonBody)

  /** What a handler writes: the status code, the two headers it may set, the body. */
  datatype Response = Response(code: int, contentType: Option<string>, xRequestId: Option<string>, body: Body)

  /** The result of an shttp handler: the response written and the error returned. */
  datatype HandlerResult = HandlerResult(response: Response, err: Option<string>)

  /** The value `getStatus` returns: code, body and the mode it read. */
  datatype StatusResult = StatusResult(code: int, body: Body, useJSON: bool)

  /** `json.Marshal` of a `responseBody`. */
  function Marshal(rb: ResponseBody): (j: JsonBody)
    ensures j.status == rb.status
    ensures j.reason.Some? <==> rb.reason != ""
    ensures j.reason.Some? ==> j.reason.value == rb.reason
  {
    JsonBody(rb.status, if rb.reason == "" then None else Some(rb.reason))
  }

  /** `json.Unmarshal` into a zero `responseBody`: an absent field reads as "". */
  function Unmarshal(j: JsonBody): ResponseBody
  {
    ResponseBody(j.status, match j.reason case Some(r) => r case None => "")
  }

  /** Decoding an encoded body gives back the body, for every status and
      reason a string here can hold (valid UTF-8). */
  lemma MarshalRoundTrip(rb: ResponseBody)
    ensures Unmarshal(Marshal(rb)) == rb
  {
  }

  /** The plain-text body. */
  function PlainText(status: Status, reason: string): string
  {
    status + ": " + reason
  }

  /** True when `t` has no occurrence of the separator ": ". */
  predicate NoSeparator(t: string)
  {
    forall i :: 0 <= i < |t| - 1 ==> !(t[i] == ':' && t[i + 1] == ' ')
  }

  /** Splits `t` at its first ": ", as a reader of the plain-text body would. */
  function SplitAtSeparator(t: string): Option<(string, string)>
    decreases |t|
  {
    if |t| < 2 then None
    else if t[0] == ':' && t[1] == ' ' then Some(([], t[2..]))
    else match SplitAtSeparator(t[1..])
      case None => None
      case Some(p) => Some(([t[0]] + p.0, p.1))
  }

  /** The plain-text body can be read back as (status, reason) whenever the
      status itself holds no separator, whatever the reason holds. */
  lemma {:induction false} PlainTextRoundTrip(status: Status, reason: string)
    requires NoSeparator(status)
    ensures SplitAtSeparator(PlainText(status, reason)) == Some((status, reason))
    decreases |status|
  {
    var t := PlainText(status, reason);
    if status == [] {
      assert t == ": " + reason;
      assert t[2..] == reason;
    } else {
      var rest := status[1..];
      assert NoSeparator(rest) by {
        forall i | 0 <= i < |rest| - 1
          ensures !(rest[i] == ':' && rest[i + 1] == ' ')
        {
          assert rest[i] == status[i + 1] && rest[i + 1] == status[i + 2];
        }
      }
      assert t[0] == status[0];
      assert |status| == 1 ==> t[1] == ':';
      assert |status| > 1 ==> t[1] == status[1];
      assert !(t[0] == ':' && t[1] == ' ');
      assert t[1..] == PlainText(rest, reason);
      PlainTextRoundTrip(rest, reason);
      assert [status[0]] + rest == status;
    }
  }

  lemma UpDownHaveNoSeparator()
    ensures NoSeparator(Up) && NoSeparator(Down)
  {
  }

  /** `getStatus`: the body follows the mode, and the code is 200 exactly
      when the status is UP (any other stored status gives 503). */
  function RenderStatus(s: State): (r: StatusResult)
    ensures r.useJSON == s.useJSON
    ensures r.code == StatusOK <==> s.status == Up
    ensures r.code == StatusOK || r.code == StatusServiceUnavailable
    ensures r.body.Json? <==> s.useJSON
    ensures s.useJSON ==> r.body.json == Marshal(ResponseBody(s.status, s.reason))
    ensures !s.useJSON ==> r.body.text == PlainText(s.status, s.reason)
  {
    var body := if s.useJSON then Json(Marshal(ResponseBody(s.status, s.reason)))
                else Text(PlainText(s.status, s.reason));
    var code := if s.status == Up then StatusOK else StatusServiceUnavailable;
    StatusResult(code, body, s.useJSON)
  }

  /** `GetResponseStatusCodeAndBody`: the code and body `ServeHTTP` writes. */
  function GetResponseStatusCodeAndBody(s: State): (r: (int, Body))
    ensures r.0 == StatusOK <==> s.status == Up
    ensures r.0 == ServeHTTP(s).code && r.1 == ServeHTTP(s).body
  {
    var res := RenderStatus(s);
    (res.code, res.body)
  }

  /** The `X-Request-ID` header: the context's `request_id` string, unchanged,
      exactly when it is present and non-empty. */
  function ForwardedRequestId(requestId: Option<string>): (h: Option<string>)
    ensures h.Some? <==> requestId.Some? && requestId.value != ""
    ensures h.Some? ==> h == requestId
  {
    match requestId
    case Some(id) => if id != "" then Some(id) else None
    case None => None
  }

  /** `ServeHTTP`: Content-Type is JSON exactly in JSON mode; no request id. */
  function ServeHTTP(s: State): (r: Response)
    ensures r.contentType.Some? <==> s.useJSON
    ensures r.contentType.Some? ==> r.contentType.value == JsonContentType
    ensures r.xRequestId == None
    ensures r.code == RenderStatus(s).code && r.body == RenderStatus(s).body
  {
    var res := RenderStatus(s);
    Response(res.code, if res.useJSON then Some(JsonContentType) else None, None, res.body)
  }

  /** `HealthHandler()`: what `ServeHTTP` writes, plus the forwarded request
      id; it never fails. */
  function HealthHandler(s: State, requestId: Option<string>): (r: HandlerResult)
    ensures r.err == None
    ensures r.response.code == ServeHTTP(s).code && r.response.body == ServeHTTP(s).body
    ensures r.response.contentType == ServeHTTP(s).contentType
    ensures r.response.xRequestId == ForwardedRequestId(requestId)
  {
    var res := RenderStatus(s);
    var response := Response(res.code, if res.useJSON then Some(JsonContentType) else None,
                             ForwardedRequestId(requestId), res.body);
    HandlerResult(response, None)
  }

  /** `JSONHealthHandler()`: always JSON, whatever the mode; the code is 503
      exactly when the status is DOWN (any other stored status gives 200);
      it never fails. */
  function JSONHealthHandler(s: State, requestId: Option<string>): (r: HandlerResult)
    ensures r.err == None
    ensures r.response.contentType == Some(JsonContentType)
    ensures r.response.body == Json(Marshal(ResponseBody(s.status, s.reason)))
    ensures r.response.code == StatusServiceUnavailable <==> s.status == Down
    ensures r.response.code == StatusOK || r.response.code == StatusServiceUnavailable
    ensures r.response.xRequestId == ForwardedRequestId(requestId)
  {
    var body := Json(Marshal(ResponseBody(s.status, s.reason)));
    var code := if s.status == Down then StatusServiceUnavailable else StatusOK;
    HandlerResult(Response(code, Some(JsonContentType), ForwardedRequestId(requestId), body), None)
  }

  /** The JSON body carries the status string and carries the reason exactly
      when it is non-empty, in either handler and for every status. */
  lemma JsonBodyCarriesStateFields(s: State, requestId: Option<string>)
    ensures JSONHealthHandler(s, requestId).response.body.json.status == s.status
    ensures JSONHealthHandler(s, requestId).response.body.json.reason ==
            (if s.reason == "" then None else Some(s.reason))
    ensures s.useJSON ==> ServeHTTP(s).body == JSONHealthHandler(s, requestId).response.body
  {
  }

  /** `JSONHealthHandler` does not depend on the mode. */
  lemma JsonHandlerIgnoresMode(s: State, v: bool, requestId: Option<string>)
    ensures JSONHealthHandler(WithMode(s, v), requestId) == JSONHealthHandler(s, requestId)
  {
  }

  /** For UP and DOWN the two code rules agree, in both shttp handlers and
      every mode. */
  lemma CodesAgreeOnUpAndDown(s: State, requestId: Option<string>)
    requires s.status == Up || s.status == Down
    ensures RenderStatus(s).code == JSONHealthHandler(s, requestId).response.code
    ensures HealthHandler(s, requestId).response.code == JSONHealthHandler(s, requestId).response.code
    ensures RenderStatus(s).code == (if s.status == Up then StatusOK else StatusServiceUnavailable)
  {
  }

  /** For any other stored status `getStatus` reports 503 and
      `JSONHealthHandler` reports 200. */
  lemma CodesDisagreeOnOtherStatus(s: State, requestId: Option<string>)
    requires s.status != Up && s.status != Down
    ensures RenderStatus(s).code == StatusServiceUnavailable
    ensures JSONHealthHandler(s, requestId).response.code == StatusOK
  {
  }

  lemma CodesDisagreeExample()
    ensures RenderStatus(State("DEGRADED", "", false)).code == StatusServiceUnavailable
    ensures JSONHealthHandler(State("DEGRADED", "", false), None).response.code == StatusOK
  {
  }

  /** The plain-text body of a healthy state is "UP: ", and of an unhealthy
      one "DOWN: " followed by the reason; both read back to the state. */
  lemma PlainTextBodies(rs: string)
    ensures ServeHTTP(Apply(Initial, SetHealthy)).body == Text("UP: ")
    ensures ServeHTTP(Apply(Initial, SetUnhealthy(rs))).body == Text("DOWN: " + rs)
    ensures SplitAtSeparator(RenderStatus(Apply(Initial, SetUnhealthy(rs))).body.text) == Some((Down, rs))
  {
    UpDownHaveNoSeparator();
    PlainTextRoundTrip(Down, rs);
  }

  /** An unhealthy state in JSON mode gives 503 with status and reason. */
  lemma UnhealthyJsonScenario()
    ensures ServeHTTP(Apply(WithMode(Initial, true), SetUnhealthy("Test reason"))) ==
            Response(StatusServiceUnavailable, Some(JsonContentType), None,
                     Json(JsonBody("DOWN", Some("Test reason"))))
  {
  }

  /** A healthy state in JSON mode gives 200 and an object with no reason. */
  lemma HealthyJsonScenario(requestId: Option<string>)
    ensures JSONHealthHandler(Apply(Initial, SetHealthy), requestId).response.body ==
            Json(JsonBody("UP", None))
    ensures HealthHandler(Apply(WithMode(Initial, true), SetHealthy), requestId).response.body ==
            Json(JsonBody("UP", None))
    ensures HealthHandler(Apply(WithMode(Initial, true), SetHealthy), requestId).response.code == StatusOK
  {
  }
}
