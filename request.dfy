/**
 * The request client: how a call prepares the caller's payload and the
 * fetch options, and how the fetch outcome is turned into the value the
 * returned promise resolves to.
 */
module HttpRequest {
  import opened Wrappers

  /** A JSON value (numbers are integers here). */
  datatype Json =
    | JNull
    | JBool(b: bool)
    | JNum(n: int)
    | JStr(s: string)
    | JArr(elems: seq<Json>)
    | JObj(members: map<string, Json>)

  /** JavaScript truthiness of a parsed JSON value: arrays and objects are truthy. */
  predicate Truthy(v: Json)
  {
    match v
    case JNull => false
    case JBool(b) => b
    case JNum(n) => n != 0
    case JStr(s) => s != ""
    case JArr(_) => true
    case JObj(_) => true
  }

  /** The configuration object handed to the constructor. */
  datatype Config = Config(ajaxUrl: string, baseUrl: string, nonce: string, restNonce: string)

  /** A read of the response body: it produced a value, or its promise rejected. */
  datatype ReadResult<T> = Done(value: T) | Failed

  /**
   * What the network gives back: no response at all, or a response with its
   * `ok` flag and status, and what `response.json()` and `response.text()`
   * would produce.
   */
  datatype Outcome =
    | TransportFailure
    | Response(ok: bool, status: int, json: ReadResult<Json>, text: ReadResult<string>)

  /**
   * How a call resolves: the parsed body of a successful response, the error
   * envelope of a failed one, or the network-error envelope.
   */
  datatype Resolution = Parsed(body: Json) | ServerError(message: Json, status: int) | NetworkError

  /** The options handed to `fetch`. */
  datatype FetchOptions = FetchOptions(httpMethod: string, headers: map<string, string>, body: Option<Json>)

  const ServerErrorText := "Server error"
  const NetworkErrorText := "Network error"
  const DefaultMethod := "POST"

  /** The methods whose call carries the payload as its body. */
  predicate SendsBody(httpMethod: string)
  {
    httpMethod == "POST" || httpMethod == "PUT" || httpMethod == "DELETE"
  }

  /**
   * The message of a failed response whose body parsed as `data`. The
   * status is tested first, so for a 500 `data.message` is never read;
   * otherwise reading it throws when `data` is null (`None`), and the parsed
   * message replaces 'Server error' only when it is truthy.
   */
  function ErrorMessage(status: int, data: Json): (r: Option<Json>)
    ensures r.None? <==> status != 500 && data == JNull
    ensures status == 500 ==> r == Some(JStr(ServerErrorText))
    ensures r.Some? && r.value != JStr(ServerErrorText) ==>
              status != 500 && data.JObj? && "message" in data.members && r.value == data.members["message"]
    ensures status != 500 && data.JObj? && "message" in data.members && Truthy(data.members["message"]) ==>
              r == Some(data.members["message"])
    ensures r.Some? ==> Truthy(r.value)
  {
    if status == 500 then Some(JStr(ServerErrorText))
    else match data
      case JNull => None
      case JObj(m) =>
        if "message" in m && Truthy(m["message"]) then Some(m["message"]) else Some(JStr(ServerErrorText))
      case _ => Some(JStr(ServerErrorText))
  }

  /**
   * The response handler followed by the final `catch`: every outcome
   * resolves, any rejection on the way becoming the network-error envelope.
   */
  function Classify(outcome: Outcome): (r: Resolution)
    ensures outcome.TransportFailure? ==> r == NetworkError
    ensures r.Parsed? <==> outcome.Response? && outcome.ok && outcome.json.Done?
    ensures r.Parsed? ==> r.body == outcome.json.value
    ensures r.ServerError? ==> outcome.Response? && !outcome.ok && r.status == outcome.status
  {
    match outcome
    case TransportFailure => NetworkError
    case Response(ok, status, json, text) =>
      if !ok then
        var message := if json.Done? then ErrorMessage(status, json.value) else None;
        if message.Some? then ServerError(message.value, status)
        else if text.Done? then ServerError(JStr(ServerErrorText), status)
        else NetworkError
      else if json.Done? then Parsed(json.value)
      else NetworkError
  }

  /** The JavaScript value a resolution stands for. */
  function Envelope(r: Resolution): (v: Json)
    ensures r.Parsed? ==> v == r.body
    ensures !r.Parsed? ==> v.JObj? && "success" in v.members && v.members["success"] == JBool(false)
    ensures r.ServerError? ==> v.members.Keys == {"success", "results", "message", "status"}
    ensures r.NetworkError? ==> v.members.Keys == {"success", "message"}
  {
    match r
    case Parsed(body) => body
    case ServerError(message, status) =>
      JObj(map["success" := JBool(false), "results" := JArr([]), "message" := message, "status" := JNum(status)])
    case NetworkError =>
      JObj(map["success" := JBool(false), "message" := JStr(NetworkErrorText)])
  }

  /**
   * A failed response's message is 'Server error' unless its body parsed to
   * an object whose `message` is truthy and the status is not 500; in that
   * case it is that message.
   */
  lemma ServerErrorMessage(outcome: Outcome)
    requires outcome.Response? && !outcome.ok
    requires Classify(outcome).ServerError?
    ensures var r := Classify(outcome);
            var usable := outcome.status != 500 && outcome.json.Done? && outcome.json.value.JObj?
                          && "message" in outcome.json.value.members
                          && Truthy(outcome.json.value.members["message"]);
            && (usable ==> r.message == outcome.json.value.members["message"])
            && (!usable ==> r.message == JStr(ServerErrorText))
  {
  }

  /**
   * A failed response resolves to the error envelope with its own status
   * whenever its text can be read, or its body parses to something other
   * than `null`, or its status is 500 and its body parses.
   */
  lemma ReadableErrorResolves(outcome: Outcome)
    requires outcome.Response? && !outcome.ok
    requires outcome.text.Done? || (outcome.json.Done? && (outcome.status == 500 || outcome.json.value != JNull))
    ensures Classify(outcome).ServerError?
    ensures Envelope(Classify(outcome)) ==
              JObj(map["success" := JBool(false), "results" := JArr([]),
                       "message" := Classify(outcome).message, "status" := JNum(outcome.status)])
  {
  }

  /**
   * Exactly these outcomes end in the network-error envelope: no response,
   * a successful response whose body does not parse, and a failed response
   * whose message could not be taken from its body (it did not parse, or it
   * is `null` under a status other than 500) and whose text cannot be read.
   */
  lemma NetworkErrorCases(outcome: Outcome)
    ensures Classify(outcome) == NetworkError <==>
              || outcome.TransportFailure?
              || (outcome.ok && outcome.json.Failed?)
              || (!outcome.ok && outcome.text.Failed?
                  && (outcome.json.Failed? || (outcome.json.value == JNull && outcome.status != 500)))
  {
  }

  /** A 500 response with a body that is not JSON but can be read as text. */
  lemma NonJsonServerError(text: string)
    ensures Envelope(Classify(Response(false, 500, Failed, Done(text)))) ==
              JObj(map["success" := JBool(false), "results" := JArr([]),
                       "message" := JStr("Server error"), "status" := JNum(500)])
  {
  }

  /** No response at all. */
  lemma TransportFailureEnvelope()
    ensures Envelope(Classify(TransportFailure)) ==
              JObj(map["success" := JBool(false), "message" := JStr("Network error")])
  {
  }

  /** The caller's payload object, which a call updates in place. */
  class Payload {
    var fields: map<string, Json>

    constructor (fields: map<string, Json>)
      ensures this.fields == fields
    {
      this.fields := fields;
    }
  }

  /** The client object built from the configuration. */
  class Request {
    const ajaxUrl: string
    const baseUrl: string
    const nonce: string
    const restNonce: string

    constructor (config: Config)
      ensures ajaxUrl == config.ajaxUrl && baseUrl == config.baseUrl
      ensures nonce == config.nonce && restNonce == config.restNonce
    {
      ajaxUrl := config.ajaxUrl;
      baseUrl := config.baseUrl;
      nonce := config.nonce;
      restNonce := config.restNonce;
    }

    /**
     * `request`: stamp the endpoint and nonce into the caller's payload,
     * build the fetch options (a body only for POST, PUT and DELETE), and
     * resolve with the envelope of the network's `outcome`.
     */
    method Send(endpoint: string, payload: Payload, outcome: Outcome, httpMethod: string := DefaultMethod)
      returns (url: string, options: FetchOptions, resolved: Json)
      modifies payload
      ensures payload.fields == old(payload.fields)["action" := JStr(endpoint)]["nonce" := JStr(nonce)]
      ensures url == baseUrl + "/" + endpoint
      ensures options.httpMethod == httpMethod
      ensures options.headers == map["Content-Type" := "application/json", "X-WP-Nonce" := restNonce]
      ensures options.body.Some? <==> SendsBody(httpMethod)
      ensures options.body.Some? ==> options.body.value == JObj(payload.fields)
      ensures resolved == Envelope(Classify(outcome))
    {
      payload.fields := payload.fields["action" := JStr(endpoint)];
      payload.fields := payload.fields["nonce" := JStr(nonce)];
      options := FetchOptions(httpMethod, map["Content-Type" := "application/json", "X-WP-Nonce" := restNonce], None);
      if httpMethod == "POST" || httpMethod == "PUT" || httpMethod == "DELETE" {
        options := options.(body := Some(JObj(payload.fields)));
      }
      url := baseUrl + "/" + endpoint;
      resolved := Envelope(Classify(outcome));
    }

    /** `get`: a GET call, whose payload is stamped but not sent. */
    method Get(endpoint: string, payload: Payload, outcome: Outcome)
      returns (url: string, options: FetchOptions, resolved: Json)
      modifies payload
      ensures payload.fields == old(payload.fields)["action" := JStr(endpoint)]["nonce" := JStr(nonce)]
      ensures url == baseUrl + "/" + endpoint
      ensures options.httpMethod == "GET" && options.body == None
      ensures options.headers == map["Content-Type" := "application/json", "X-WP-Nonce" := restNonce]
      ensures resolved == Envelope(Classify(outcome))
    {
      url, options, resolved := Send(endpoint, payload, outcome, "GET");
    }

    /** `post`: a POST call carrying the stamped payload. */
    method Post(endpoint: string, payload: Payload, outcome: Outcome)
      returns (url: string, options: FetchOptions, resolved: Json)
      modifies payload
      ensures payload.fields == old(payload.fields)["action" := JStr(endpoint)]["nonce" := JStr(nonce)]
      ensures url == baseUrl + "/" + endpoint
      ensures options.httpMethod == "POST" && options.body == Some(JObj(payload.fields))
      ensures options.headers == map["Content-Type" := "application/json", "X-WP-Nonce" := restNonce]
      ensures resolved == Envelope(Classify(outcome))
    {
      url, options, resolved := Send(endpoint, payload, outcome, "POST");
    }

    /** `put`: a PUT call carrying the stamped payload. */
    method Put(endpoint: string, payload: Payload, outcome: Outcome)
      returns (url: string, options: FetchOptions, resolved: Json)
      modifies payload
      ensures payload.fields == old(payload.fields)["action" := JStr(endpoint)]["nonce" := JStr(nonce)]
      ensures url == baseUrl + "/" + endpoint
      ensures options.httpMethod == "PUT" && options.body == Some(JObj(payload.fields))
      ensures options.headers == map["Content-Type" := "application/json", "X-WP-Nonce" := restNonce]
      ensures resolved == Envelope(Classify(outcome))
    {
      url, options, resolved := Send(endpoint, payload, outcome, "PUT");
    }

    /** `delete`: a DELETE call carrying the stamped payload. */
    method Delete(endpoint: string, payload: Payload, outcome: Outcome)
      returns (url: string, options: FetchOptions, resolved: Json)
      modifies payload
      ensures payload.fields == old(payload.fields)["action" := JStr(endpoint)]["nonce" := JStr(nonce)]
      ensures url == baseUrl + "/" + endpoint
      ensures options.httpMethod == "DELETE" && options.body == Some(JObj(payload.fields))
      ensures options.headers == map["Content-Type" := "application/json", "X-WP-Nonce" := restNonce]
      ensures resolved == Envelope(Classify(outcome))
    {
      url, options, resolved := Send(endpoint, payload, outcome, "DELETE");
    }
  }

  /**
   * Stamping keeps every other key of the payload and makes `action` and
   * `nonce` the endpoint and the configured nonce, whatever they were before.
   */
  lemma StampKeepsOtherKeys(fields: map<string, Json>, endpoint: string, nonce: string, key: string)
    requires key in fields && key != "action" && key != "nonce"
    ensures var stamped := fields["action" := JStr(endpoint)]["nonce" := JStr(nonce)];
            && key in stamped && stamped[key] == fields[key]
            && stamped["action"] == JStr(endpoint) && stamped["nonce"] == JStr(nonce)
            && stamped.Keys == fields.Keys + {"action", "nonce"}
  {
  }
}
