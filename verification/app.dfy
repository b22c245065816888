/** The HTTP endpoint `POST /publish`: it reads topic, message, QoS and
    retain flag from the request's JSON body, rejects a request without a
    topic or message, and otherwise hands the four values to the
    command-line publisher's `run`. Flask's routing and JSON parsing are not
    modelled; the body is taken to be a JSON object already decoded, and
    `run` is a parameter that says whether the call returned or raised. A
    body that is valid JSON but not an object is modelled too: `data.get`
    then raises outside the `try`. */
module App {
  import opened Wrappers

  /** A decoded JSON value. `null` is Python's `None`. Python's decoder also
      yields floats no real number stands for: NaN and the infinities, from
      `NaN`, `Infinity`, `-Infinity` or an overflowing literal such as
      `1e999`; `JNonFinite` is any of those. */
  datatype Json =
    | JNull
    | JBool(b: bool)
    | JInt(i: int)
    | JFloat(f: real)
    | JNonFinite
    | JString(s: string)
    | JArray(items: seq<Json>)
    | JObject(fields: map<string, Json>)

  /** Python truthiness: `None`, `False`, zero, and empty strings, lists
      and dicts are false; everything else is true. */
  predicate Truthy(v: Json) {
    match v
    case JNull => false
    case JBool(b) => b
    case JInt(i) => i != 0
    case JFloat(f) => f != 0.0
    case JNonFinite => true
    case JString(s) => s != ""
    case JArray(items) => items != []
    case JObject(fields) => fields != map[]
  }

  /** `data.get(key, default)`: the default only when the key is absent; a
      key present with value `null` gives `None`. */
  function Get(data: map<string, Json>, key: string, default: Json): (v: Json)
    ensures key in data ==> v == data[key]
    ensures key !in data ==> v == default
  {
    if key in data then data[key] else default
  }

  /** The arguments handed to `run`, as found in the request. */
  datatype RunCall = RunCall(topic: Json, message: Json, qos: Json, retain: Json)

  /** What `run` did: returned normally, or raised an exception with text. */
  datatype RunOutcome = Returned | Raised(text: string)

  const RequiredError: string := "Topic and message are required"

  datatype Response =
    | BadRequest(error: string)   // status 400, `{"error": ...}`
    | ServerError(error: string)  // status 500, `{"error": str(e)}`
    | Published(topic: Json)      // status 200, `{"success": true, "message": "Published to topic ..."}`
    | Unhandled                   // status 500, Flask's own error page for an exception outside the `try`

  function Status(r: Response): int {
    match r
    case BadRequest(_) => 400
    case ServerError(_) => 500
    case Published(_) => 200
    case Unhandled => 500
  }

  /** The response together with the call made to `run`, if any. */
  datatype Handled = Handled(response: Response, call: Option<RunCall>)

  /** The arguments the handler reads out of a request body. */
  function Fields(data: map<string, Json>): (c: RunCall)
    ensures "topic" in data ==> c.topic == data["topic"]
    ensures "message" in data ==> c.message == data["message"]
    ensures "qos" in data ==> c.qos == data["qos"]
    ensures "retain" in data ==> c.retain == data["retain"]
    ensures "topic" !in data ==> c.topic == JNull
    ensures "message" !in data ==> c.message == JNull
    ensures "qos" !in data ==> c.qos == JInt(0)
    ensures "retain" !in data ==> c.retain == JBool(false)
  {
    RunCall(Get(data, "topic", JNull), Get(data, "message", JNull),
            Get(data, "qos", JInt(0)), Get(data, "retain", JBool(false)))
  }

  /** `publish_message`. */
  function PublishMessage(data: map<string, Json>, run: RunCall -> RunOutcome): (h: Handled)
    ensures h.call.None? <==> !Truthy(Fields(data).topic) || !Truthy(Fields(data).message)
    ensures h.call.None? ==> h.response == BadRequest(RequiredError)
    ensures h.call.Some? ==> h.call.value == Fields(data)
    ensures h.call.Some? ==>
      h.response == (match run(h.call.value)
                     case Returned => Published(h.call.value.topic)
                     case Raised(text) => ServerError(text))
  {
    var c := Fields(data);
    if !Truthy(c.topic) || !Truthy(c.message) then
      Handled(BadRequest(RequiredError), None)
    else
      match run(c)
      case Returned => Handled(Published(c.topic), Some(c))
      case Raised(text) => Handled(ServerError(text), Some(c))
  }

  /** A request without a usable topic is refused with 400 whatever `run`
      would do, and `run` is not called. */
  lemma MissingTopic(data: map<string, Json>, run: RunCall -> RunOutcome)
    requires "topic" !in data || data["topic"] in {JNull, JString("")}
    ensures PublishMessage(data, run) == Handled(BadRequest(RequiredError), None)
    ensures Status(PublishMessage(data, run).response) == 400
  {}

  /** A request without a usable message is refused the same way. */
  lemma MissingMessage(data: map<string, Json>, run: RunCall -> RunOutcome)
    requires "message" !in data || data["message"] in {JNull, JString("")}
    ensures PublishMessage(data, run) == Handled(BadRequest(RequiredError), None)
    ensures Status(PublishMessage(data, run).response) == 400
  {}

  /** A refused request does not depend on `run` at all. */
  lemma RefusalIgnoresRun(data: map<string, Json>, run1: RunCall -> RunOutcome, run2: RunCall -> RunOutcome)
    requires PublishMessage(data, run1).response.BadRequest?
    ensures PublishMessage(data, run1) == PublishMessage(data, run2)
  {}

  /** QoS and retain reach `run` exactly as sent: an explicit `null` is not
      replaced by the default, and a QoS outside 0..2 is not refused here. */
  lemma ForwardedUnchanged(topic: string, message: string, qos: Json, retain: Json, run: RunCall -> RunOutcome)
    requires topic != "" && message != ""
    ensures var data := map["topic" := JString(topic), "message" := JString(message),
                             "qos" := qos, "retain" := retain];
      PublishMessage(data, run).call == Some(RunCall(JString(topic), JString(message), qos, retain))
  {}

  /** Without the optional keys, `run` gets QoS 0 and retain `False`. */
  lemma Defaults(topic: string, message: string, run: RunCall -> RunOutcome)
    requires topic != "" && message != ""
    ensures var data := map["topic" := JString(topic), "message" := JString(message)];
      PublishMessage(data, run).call == Some(RunCall(JString(topic), JString(message), JInt(0), JBool(false)))
  {}

  /** Every request gets exactly one of the three responses: 400 exactly
      when `run` was not called, otherwise 500 exactly when it raised and
      success exactly when it returned. */
  lemma OneOutcome(data: map<string, Json>, run: RunCall -> RunOutcome)
    ensures var h := PublishMessage(data, run);
      && Status(h.response) in {400, 500, 200}
      && (Status(h.response) == 400 <==> h.call.None?)
      && (Status(h.response) == 500 <==> h.call.Some? && run(h.call.value).Raised?)
      && (Status(h.response) == 200 <==> h.call.Some? && run(h.call.value) == Returned)
  {}

  /** `publish_message` on the decoded body `request.json`. A body that is
      not an object (an array, a number, a string, a boolean or `null`) has
      no `get`: the `AttributeError` is raised before the `try`, so Flask
      answers with its generic 500 instead of `{"error": ...}`. */
  function PublishRequest(body: Json, run: RunCall -> RunOutcome): (h: Handled)
    ensures body.JObject? ==> h == PublishMessage(body.fields, run)
    ensures !body.JObject? ==> h == Handled(Unhandled, None)
  {
    match body
    case JObject(fields) => PublishMessage(fields, run)
    case _ => Handled(Unhandled, None)
  }

  /** Every decoded body gets one answer: success only when `run` returned, a
      JSON error text only from a refusal or from `run`, and `run` called
      only for an object with a truthy topic and message. */
  lemma RequestOutcome(body: Json, run: RunCall -> RunOutcome)
    ensures var h := PublishRequest(body, run);
      && Status(h.response) in {400, 500, 200}
      && (h.call.Some? <==> body.JObject? && Truthy(Fields(body.fields).topic) && Truthy(Fields(body.fields).message))
      && (Status(h.response) == 200 <==> h.call.Some? && run(h.call.value) == Returned)
      && (h.response == Unhandled <==> !body.JObject?)
  {}
}
