/** Building the command request for one device and classifying the reply
    (`execute_xapi_command`), with the HTTP POST as a parameter. */
module Dispatcher {
  import opened Wrappers
  import opened Json

  const BaseUrl := "https://webexapis.com/v1"

  /** The endpoint a command is posted to. */
  function CommandUrl(command: string): string {
    BaseUrl + "/xapi/command/" + command
  }

  /** A JSON request body. */
  type Body = map<string, Json>

  /** One POST: where it goes and the body it carries. */
  datatype Request = Request(url: string, body: Body)

  /** What the HTTP layer gives back for a POST: a response, or a raised
      transport exception with its message. */
  datatype HttpReply = Response(status: nat, text: string) | ConnectionFailed(message: string)

  /** The remote service, as a function of the request it receives. */
  type Poster = Request -> HttpReply

  /** What `execute_xapi_command` does for its caller: it returns a value,
      or an exception escapes it. */
  datatype Dispatch = Returned(value: Json) | Raised(message: string)

  /** `device.get("id")` as it ends up in the payload. */
  function IdJson(id: Option<string>): Json {
    match id
    case Some(s) => JString(s)
    case None => JNull
  }

  /** The request body for one device: `deviceId` always; `arguments` only
      when the arguments are truthy, a string being replaced by its JSON
      parse when it has one and sent raw otherwise. */
  function Payload(deviceId: Option<string>, arguments: Json, loads: JsonLoader): (p: Body)
    ensures "deviceId" in p && p["deviceId"] == IdJson(deviceId)
    ensures "arguments" in p <==> Truthy(arguments)
    ensures forall k :: k in p ==> k == "deviceId" || k == "arguments"
    ensures "arguments" in p && arguments.JString? && loads(arguments.s).Success? ==>
              p["arguments"] == loads(arguments.s).value
    ensures "arguments" in p && !arguments.JString? ==> p["arguments"] == arguments
    ensures "arguments" in p && arguments.JString? && loads(arguments.s).Failure? ==>
              p["arguments"] == arguments
  {
    var base := map["deviceId" := IdJson(deviceId)];
    if !Truthy(arguments) then base
    else if arguments.JString? && loads(arguments.s).Success? then base["arguments" := loads(arguments.s).value]
    else base["arguments" := arguments]
  }

  /** Python's `str(n)` for a non-negative integer. */
  function DecimalString(n: nat): (r: string)
    ensures r != [] && AllDigits(r)
    decreases n
  {
    if n < 10 then [DigitChar(n)] else DecimalString(n / 10) + [DigitChar(n % 10)]
  }

  function DigitChar(d: nat): char
    requires d < 10
  {
    ('0' as int + d) as char
  }

  predicate AllDigits(s: string) {
    forall i :: 0 <= i < |s| ==> '0' <= s[i] <= '9'
  }

  /** The number a string of decimal digits denotes. */
  function DecimalValue(s: string): nat
    requires AllDigits(s)
  {
    if s == [] then 0 else 10 * DecimalValue(s[..|s| - 1]) + (s[|s| - 1] as int - '0' as int)
  }

  lemma {:induction false} DecimalRoundTrip(n: nat)
    ensures DecimalValue(DecimalString(n)) == n
    decreases n
  {
    if n >= 10 {
      DecimalRoundTrip(n / 10);
      var r := DecimalString(n);
      assert r[..|r| - 1] == DecimalString(n / 10);
    }
  }

  const FailurePrefix := "Command failed with status "

  /** The value returned for a non-200 response. */
  function FailureObject(status: nat, text: string): Json {
    JObject(map["error" := JString(FailurePrefix + DecimalString(status)), "details" := JString(text)])
  }

  /** The status code written in a failure object's `error` text, if it has
      one. */
  function StatusOf(j: Json): Option<nat> {
    if j.JObject? && "error" in j.fields && j.fields["error"].JString? then
      var msg := j.fields["error"].s;
      if FailurePrefix <= msg && |msg| > |FailurePrefix| && AllDigits(msg[|FailurePrefix|..])
      then Some(DecimalValue(msg[|FailurePrefix|..]))
      else None
    else None
  }

  /** A non-200 reply is reported as a value with an `error` key from which
      the status code can be read back, and with the raw body as `details`. */
  lemma FailureObjectCarriesStatus(status: nat, text: string)
    ensures FailureObject(status, text).JObject?
    ensures "error" in FailureObject(status, text).fields
    ensures StatusOf(FailureObject(status, text)) == Some(status)
    ensures "details" in FailureObject(status, text).fields
    ensures FailureObject(status, text).fields["details"] == JString(text)
  {
    var msg := FailurePrefix + DecimalString(status);
    assert msg[|FailurePrefix|..] == DecimalString(status);
    DecimalRoundTrip(status);
  }

  /** What `execute_xapi_command` makes of the reply: on 200 the parsed body
      (or the parse error escapes), on any other status a failure value, and a
      transport exception escapes unchanged. */
  function Classify(reply: HttpReply, loads: JsonLoader): (d: Dispatch)
    ensures reply.ConnectionFailed? ==> d == Raised(reply.message)
    ensures reply.Response? && reply.status == 200 ==>
              (d.Returned? <==> loads(reply.text).Success?) &&
              (d.Returned? ==> d.value == loads(reply.text).value) &&
              (d.Raised? ==> d.message == loads(reply.text).error)
    ensures reply.Response? && reply.status != 200 ==>
              d.Returned? && StatusOf(d.value) == Some(reply.status) &&
              "details" in d.value.fields && d.value.fields["details"] == JString(reply.text)
  {
    match reply
    case ConnectionFailed(m) => Raised(m)
    case Response(status, text) =>
      if status == 200 then
        match loads(text)
        case Success(j) => Returned(j)
        case Failure(m) => Raised(m)
      else
        FailureObjectCarriesStatus(status, text);
        Returned(FailureObject(status, text))
  }

  /** The request `execute_xapi_command` posts for one device. */
  function CommandRequest(deviceId: Option<string>, command: string, arguments: Json, loads: JsonLoader): Request {
    Request(CommandUrl(command), Payload(deviceId, arguments, loads))
  }

  /** What one dispatch does, as a value. */
  function Execute(deviceId: Option<string>, command: string, arguments: Json, loads: JsonLoader, post: Poster): Dispatch {
    Classify(post(CommandRequest(deviceId, command, arguments, loads)), loads)
  }

  /** `execute_xapi_command`: fill the payload, post it once, classify the
      reply. `sent` is the request that went out. */
  method ExecuteCommand(deviceId: Option<string>, command: string, arguments: Json, loads: JsonLoader, post: Poster)
    returns (d: Dispatch, sent: Request)
    ensures sent == Request(CommandUrl(command), Payload(deviceId, arguments, loads))
    ensures d == Execute(deviceId, command, arguments, loads, post)
  {
    var url := CommandUrl(command);
    var payload: Body := map["deviceId" := IdJson(deviceId)];
    if Truthy(arguments) {
      if arguments.JString? {
        match loads(arguments.s) {
          case Success(j) => payload := payload["arguments" := j];
          case Failure(_) => payload := payload["arguments" := arguments];
        }
      } else {
        payload := payload["arguments" := arguments];
      }
    }
    sent := Request(url, payload);
    var reply := post(sent);
    d := Classify(reply, loads);
  }

  /** A 404 with body "not found" is returned, not raised, and carries both
      the status and the body. */
  lemma NotFoundExample(loads: JsonLoader)
    ensures Classify(Response(404, "not found"), loads).Returned?
    ensures StatusOf(Classify(Response(404, "not found"), loads).value) == Some(404)
    ensures Classify(Response(404, "not found"), loads).value.fields["details"] == JString("not found")
  {
  }
}
