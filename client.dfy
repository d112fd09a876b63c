/**
 * `DatadogMetricClient` (lib/client.js): the client object with its six
 * configuration properties, the request it builds from
 * `(method, path, params, callback)`, and how a finished exchange becomes
 * `callback(error, data, statusCode)`.
 */
module DatadogClient {
  import opened Wrappers
  import opened Js
  import opened Http
  import opened Calls
  import Text

  const DefaultVersion: string := "v1"
  const DefaultHost: string := "app.datadoghq.com"
  const HttpsPort: int := 443
  const JsonType: string := "application/json"

  /** The client's own properties, by their JavaScript names. */
  const OwnKeys: set<string> := {"api_key", "app_key", "proxy_agent", "http_options", "api_version", "api_host"}

  /** What a property becomes when its option is falsy. */
  function Fallback(key: string): Value {
    if key == "api_version" then Str(DefaultVersion)
    else if key == "api_host" then Str(DefaultHost)
    else Null
  }

  /** The properties `new DatadogMetricClient(options)` sets: each is `options[key] || fallback`. */
  function Configured(options: Value): (m: map<string, Value>)
    ensures m.Keys == OwnKeys
    ensures forall k :: k in m && Truthy(Prop(options, k)) ==> m[k] == Prop(options, k)
    ensures forall k :: k in m && !Truthy(Prop(options, k)) ==> m[k] == Fallback(k)
  {
    map k | k in OwnKeys :: Or(Prop(options, k), Fallback(k))
  }

  /** With no options at all, keys and agent are null, the version is v1 and the host the public one. */
  lemma ConfiguredDefaults()
    ensures Configured(EmptyObject) == map[
      "api_key" := Null, "app_key" := Null, "proxy_agent" := Null, "http_options" := Null,
      "api_version" := Str("v1"), "api_host" := Str("app.datadoghq.com")]
  {
  }

  class Client {
    var apiKey: Value
    var appKey: Value
    var proxyAgent: Value
    var httpOptions: Value
    var apiVersion: Value
    var apiHost: Value

    /** The client's own properties, as `hasOwnProperty` sees them. */
    function Owned(): (m: map<string, Value>)
      reads this
      ensures m.Keys == OwnKeys
    {
      map["api_key" := apiKey, "app_key" := appKey, "proxy_agent" := proxyAgent,
          "http_options" := httpOptions, "api_version" := apiVersion, "api_host" := apiHost]
    }

    /** `new DatadogMetricClient(options)`; every caller passes an object. */
    constructor(options: Value)
      requires !IsNullish(options)
      ensures Owned() == Configured(options)
    {
      apiKey := Or(Prop(options, "api_key"), Null);
      appKey := Or(Prop(options, "app_key"), Null);
      proxyAgent := Or(Prop(options, "proxy_agent"), Null);
      httpOptions := Or(Prop(options, "http_options"), Null);
      apiVersion := Or(Prop(options, "api_version"), Str(DefaultVersion));
      apiHost := Or(Prop(options, "api_host"), Str(DefaultHost));
    }

    /** `this[key] = v` for one of the client's own properties. */
    method SetOwned(key: string, v: Value)
      requires key in OwnKeys
      modifies this
      ensures Owned() == old(Owned())[key := v]
    {
      if key == "api_key" {
        apiKey := v;
      } else if key == "app_key" {
        appKey := v;
      } else if key == "proxy_agent" {
        proxyAgent := v;
      } else if key == "http_options" {
        httpOptions := v;
      } else if key == "api_version" {
        apiVersion := v;
      } else {
        apiHost := v;
      }
    }

    /** `client.request(...)` up to the point the request is handed to `https`. */
    function Request(codec: Codec, call: Call): (r: Result<HttpRequest, Error>)
      reads this
      ensures r.Err? <==> (IsNullish(RequestArgs(call.rest).value)
        || (IsWrite(Text.ToUpper(call.verb)) && !Payload(codec, Prop(RequestArgs(call.rest).value, "body")).Str?))
      ensures r.Ok? ==> r.value.pathname == "/api/" + ToString(apiVersion) + call.path
      ensures r.Ok? ==> r.value.query == MergedQuery(apiKey, appKey, Prop(RequestArgs(call.rest).value, "query"))
      ensures r.Ok? ==> (Has(r.value.options, "method", Str(Text.ToUpper(call.verb)))
        && Has(r.value.options, "hostname", apiHost) && Has(r.value.options, "port", Num(HttpsPort)))
      ensures r.Ok? ==> (r.value.payload.Some? <==> IsWrite(Text.ToUpper(call.verb)))
      ensures r.Ok? && r.value.payload.Some? ==>
        Has(r.value.options, "headers", Obj(map[
          "Content-Type" := Or(Prop(RequestArgs(call.rest).value, "contentType"), Str(JsonType)),
          "Content-Length" := Num(|Utf8(r.value.payload.value)|)]))
      ensures r.Ok? && r.value.payload.Some? ==>
        r.value.payload.value == Payload(codec, Prop(RequestArgs(call.rest).value, "body")).s
      ensures r.Ok? && r.value.payload.None? ==>
        r.value.options == TransportOptions(httpOptions, apiHost, Text.ToUpper(call.verb), proxyAgent)
      ensures r.Ok? && r.value.payload.Some? ==>
        r.value.options == TransportOptions(httpOptions, apiHost, Text.ToUpper(call.verb), proxyAgent)["headers" :=
          r.value.options["headers"]]
    {
      BuildRequest(codec, call, apiKey, appKey, proxyAgent, httpOptions, apiVersion, apiHost)
    }

    /** What the caller's callback receives once the exchange for `call` ends with `ev`. */
    function Complete(call: Call, ev: Event): Completion {
      Finish(RequestArgs(call.rest).callback, ev)
    }
  }

  /**
   * The params and callback `request` works with: a three-argument call whose
   * third argument is a function has params `{body: ''}`.
   */
  function RequestArgs(rest: seq<Value>): (s: Shifted)
    ensures |rest| == 1 && IsFunction(rest[0]) ==> s == Shifted(Obj(map["body" := Str("")]), rest[0])
    ensures !(|rest| == 1 && IsFunction(rest[0])) ==> s == Shifted(Arg(rest, 0), Arg(rest, 1))
  {
    if |rest| == 1 && IsFunction(rest[0]) then Shifted(Obj(map["body" := Str("")]), rest[0])
    else Shifted(Arg(rest, 0), Arg(rest, 1))
  }

  /**
   * The three-argument form `request(verb, path, callback)`: with a function
   * callback the params are `{body: ''}` and the request is built (a write
   * sends the empty body); with no callback, reading `params.body` throws.
   */
  lemma BareCall(c: Client, codec: Codec, verb: string, path: string, callback: Value)
    ensures IsFunction(callback) ==> c.Request(codec, Bare(verb, path, callback)).Ok?
    ensures IsFunction(callback) && IsWrite(Text.ToUpper(verb)) ==>
      c.Request(codec, Bare(verb, path, callback)).value.payload == Some("")
    ensures IsNullish(callback) ==> c.Request(codec, Bare(verb, path, callback)) == Err(TypeError("body"))
    ensures IsFunction(callback) && !IsWrite(Text.ToUpper(verb)) ==>
      c.Request(codec, Bare(verb, path, callback)).value.payload == None
    ensures IsFunction(callback) ==>
      var r := c.Request(codec, Bare(verb, path, callback)).value;
      r.pathname == "/api/" + ToString(c.apiVersion) + path
      && Has(r.options, "method", Str(Text.ToUpper(verb)))
      && r.query == map["api_key" := c.apiKey, "application_key" := c.appKey]
  {
    var call := Bare(verb, path, callback);
    if IsFunction(callback) {
      var params := Obj(map["body" := Str("")]);
      assert RequestArgs(call.rest).value == params;
      assert Prop(params, "body") == Str("") && Prop(params, "query") == Undefined;
      MergedQueryDefault(c.apiKey, c.appKey);
    } else if IsNullish(callback) {
      assert RequestArgs(call.rest).value == callback;
    }
  }

  /**
   * A read with params `{}`: the request is built whatever the callback,
   * with only the two keys in its query and no body.
   */
  lemma EmptyParamsRead(c: Client, codec: Codec, verb: string, path: string, callback: Value)
    requires !IsWrite(Text.ToUpper(verb))
    ensures var r := c.Request(codec, WithParams(verb, path, map[], callback));
      r.Ok? && r.value.pathname == "/api/" + ToString(c.apiVersion) + path
      && Has(r.value.options, "method", Str(Text.ToUpper(verb))) && r.value.payload == None
  {
    assert RequestArgs([Obj(map[]), callback]).value == Obj(map[]);
  }

  /**
   * A write whose params carry a text body: the request is built, that text
   * is sent as is, and the content type is the params' own when truthy.
   */
  lemma TextBodyWrite(c: Client, codec: Codec, verb: string, path: string, params: map<string, Value>, callback: Value)
    requires IsWrite(Text.ToUpper(verb)) && "body" in params && params["body"].Str?
    ensures var r := c.Request(codec, WithParams(verb, path, params, callback));
      r.Ok? && r.value.payload == Some(params["body"].s)
      && Has(r.value.options, "headers", Obj(map[
          "Content-Type" := Or(Prop(Obj(params), "contentType"), Str(JsonType)),
          "Content-Length" := Num(|Utf8(params["body"].s)|)]))
  {
    var sh := RequestArgs([Obj(params), callback]);
    assert sh.value == Obj(params);
    assert Prop(sh.value, "body") == params["body"];
  }

  /**
   * A write whose params carry an object body: the body goes out as its
   * `json.stringify` text, and the length header counts that text's bytes.
   */
  lemma ObjectBodyWrite(c: Client, codec: Codec, verb: string, path: string, params: map<string, Value>, callback: Value)
    requires IsWrite(Text.ToUpper(verb)) && "body" in params && params["body"].Obj?
    ensures var r := c.Request(codec, WithParams(verb, path, params, callback));
      r.Ok? && r.value.payload == Some(codec.stringify(params["body"]))
      && Has(r.value.options, "headers", Obj(map[
          "Content-Type" := Or(Prop(Obj(params), "contentType"), Str(JsonType)),
          "Content-Length" := Num(|Utf8(codec.stringify(params["body"]))|)]))
  {
    var sh := RequestArgs([Obj(params), callback]);
    assert sh.value == Obj(params);
    assert Prop(sh.value, "body") == params["body"];
  }

  /**
   * Every request goes out with the client's `http_options` underneath: a key
   * the request does not set itself keeps its value, and the proxy agent is
   * set exactly when it is truthy or `http_options` has its own.
   */
  lemma RequestCarriesHttpOptions(c: Client, codec: Codec, call: Call)
    requires c.Request(codec, call).Ok?
    ensures var o := c.Request(codec, call).value.options;
      (forall k :: k in OwnEnumerable(c.httpOptions) && k !in {"hostname", "port", "method", "path", "headers", "agent"} ==>
         Has(o, k, OwnEnumerable(c.httpOptions)[k]))
      && (Truthy(c.proxyAgent) ==> Has(o, "agent", c.proxyAgent))
      && (!Truthy(c.proxyAgent) && "agent" in OwnEnumerable(c.httpOptions)
        ==> Has(o, "agent", OwnEnumerable(c.httpOptions)["agent"]))
      && (!Truthy(c.proxyAgent) && "agent" !in OwnEnumerable(c.httpOptions) ==> "agent" !in o)
      && "path" !in o
  {
    var r := c.Request(codec, call).value;
    var t := TransportOptions(c.httpOptions, c.apiHost, Text.ToUpper(call.verb), c.proxyAgent);
    var h := if r.payload.Some? then r.options["headers"] else Undefined;
    HeadersOverTransport(c.httpOptions, c.apiHost, Text.ToUpper(call.verb), c.proxyAgent, h, r.options);
  }

  /** `TransportOptions`, with or without headers written over it, keeps what `http_options` holds. */
  lemma HeadersOverTransport(httpOptions: Value, apiHost: Value, verb: string, proxyAgent: Value,
                             headers: Value, o: map<string, Value>)
    requires var t := TransportOptions(httpOptions, apiHost, verb, proxyAgent);
      o == t || o == t["headers" := headers]
    ensures forall k :: k in OwnEnumerable(httpOptions) && k !in {"hostname", "port", "method", "path", "headers", "agent"} ==>
      Has(o, k, OwnEnumerable(httpOptions)[k])
    ensures Truthy(proxyAgent) ==> Has(o, "agent", proxyAgent)
    ensures !Truthy(proxyAgent) && "agent" in OwnEnumerable(httpOptions)
        ==> Has(o, "agent", OwnEnumerable(httpOptions)["agent"])
    ensures !Truthy(proxyAgent) && "agent" !in OwnEnumerable(httpOptions) ==> "agent" !in o
    ensures "path" !in o
  {
  }

  /**
   * The `https.request` options before headers: the client's `http_options`
   * overridden by hostname, port and method (and path, kept apart), plus the
   * proxy agent when one is set.
   */
  function TransportOptions(httpOptions: Value, apiHost: Value, verb: string, proxyAgent: Value): (o: map<string, Value>)
    ensures Has(o, "hostname", apiHost) && Has(o, "port", Num(HttpsPort)) && Has(o, "method", Str(verb))
    ensures "path" !in o
    ensures Truthy(proxyAgent) ==> Has(o, "agent", proxyAgent)
    ensures forall k :: (k in OwnEnumerable(httpOptions) && k !in {"hostname", "port", "method", "path"}
      && !(k == "agent" && Truthy(proxyAgent))) ==> Has(o, k, OwnEnumerable(httpOptions)[k])
    ensures forall k :: k in o ==> (k in {"hostname", "port", "method"} || k in OwnEnumerable(httpOptions)
      || (k == "agent" && Truthy(proxyAgent)))
  {
    var merged := MergedOptions(httpOptions, apiHost, verb);
    if Truthy(proxyAgent) then merged["agent" := proxyAgent] else merged
  }

  /** `http_options` with hostname, port and method written over it, and its path left out. */
  function MergedOptions(httpOptions: Value, apiHost: Value, verb: string): (o: map<string, Value>)
    ensures Has(o, "hostname", apiHost) && Has(o, "port", Num(HttpsPort)) && Has(o, "method", Str(verb))
    ensures "path" !in o
    ensures forall k :: k in OwnEnumerable(httpOptions) && k !in {"hostname", "port", "method", "path"} ==>
      Has(o, k, OwnEnumerable(httpOptions)[k])
    ensures forall k :: k in o ==> (k in {"hostname", "port", "method"} || k in OwnEnumerable(httpOptions))
  {
    Assign(httpOptions, map["hostname" := apiHost, "port" := Num(HttpsPort), "method" := Str(verb)]) - {"path"}
  }

  /** The request record `request` hands to `https.request`, and the body it writes. */
  function BuildRequest(codec: Codec, call: Call, apiKey: Value, appKey: Value, proxyAgent: Value,
                        httpOptions: Value, apiVersion: Value, apiHost: Value): Result<HttpRequest, Error>
  {
    var params := RequestArgs(call.rest).value;
    var body :- Read(params, "body");
    var payload := Payload(codec, body);
    var query := MergedQuery(apiKey, appKey, Prop(params, "query"));
    var pathname := "/api/" + ToString(apiVersion) + call.path;
    var verb := Text.ToUpper(call.verb);
    var options := TransportOptions(httpOptions, apiHost, verb, proxyAgent);
    if IsWrite(verb) then
      var length :- ByteLength(payload);
      var headers := Obj(map[
        "Content-Type" := Or(Prop(params, "contentType"), Str(JsonType)),
        "Content-Length" := Num(length)]);
      Ok(HttpRequest(options["headers" := headers], pathname, query, Some(payload.s)))
    else
      Ok(HttpRequest(options, pathname, query, None))
  }

  // ---------------------------------------------------------------------------
  // the response

  /**
   * The 'end' handler: a body that does not parse counts as `{}`; a truthy
   * `errors` field becomes the error and nulls the data. Reading `errors`
   * of a parsed `null` throws inside the handler.
   */
  function Interpret(parsed: Option<Value>, status: int): (r: Result<Outcome, Error>)
    ensures r.Err? <==> parsed.Some? && IsNullish(parsed.value)
    ensures parsed.None? ==> r == Ok(Outcome(Null, EmptyObject, status))
    ensures r.Ok? ==> r.value.status == status
    ensures r.Ok? && parsed.Some? ==>
      if Truthy(Prop(parsed.value, "errors")) then r.value == Outcome(Prop(parsed.value, "errors"), Null, status)
      else r.value == Outcome(Null, parsed.value, status)
  {
    var data := if parsed.Some? then parsed.value else EmptyObject;
    var errors :- Read(data, "errors");
    if Truthy(errors) then Ok(Outcome(errors, Null, status)) else Ok(Outcome(Null, data, status))
  }

  /** Exactly one of error and data is set on every outcome of a finished response. */
  lemma InterpretExclusive(parsed: Option<Value>, status: int)
    requires Interpret(parsed, status).Ok?
    ensures var o := Interpret(parsed, status).value;
      (Truthy(o.error) && o.data == Null) || (o.error == Null && !IsNullish(o.data))
  {
  }

  /** Every way an exchange can end, as the callback sees it. */
  function Finish(callback: Value, ev: Event): (c: Completion)
    ensures ev.RequestFailed? ==> c == Deliver(callback, Outcome(ev.err, Null, 0))
    ensures ev.StreamFailed? ==> c == Deliver(callback, Outcome(ev.err, Null, ev.status))
    ensures ev.Ended? ==> (c.Crashed? <==> Interpret(ev.parsed, ev.status).Err?)
    ensures ev.Ended? && Interpret(ev.parsed, ev.status).Ok? ==> c == Deliver(callback, Interpret(ev.parsed, ev.status).value)
  {
    match ev
    case RequestFailed(err) => Deliver(callback, Outcome(err, Null, 0))
    case StreamFailed(err, status) => Deliver(callback, Outcome(err, Null, status))
    case Ended(_, parsed, status) =>
      match Interpret(parsed, status)
      case Err(e) => Crashed(e)
      case Ok(o) => Deliver(callback, o)
  }
}
