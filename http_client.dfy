/**
 * The older client of lib/http_client.js, which the legacy resource
 * modules (downtime, screen, dash, service_check) are mixed into: it takes
 * its keys from the options or from the environment, and sends through the
 * same `request(method, path, [[params], callback])` request path with a few
 * differences from lib/client.js.
 */
module HttpClient {
  import opened Wrappers
  import opened Js
  import opened Http
  import opened Calls
  import Text
  import DatadogClient

  const ApiKeyMissing: string :=
    "`api_key` is not present, either provide `api_key` in `options` or use environment variable `DD_API_KEY`"
  const AppKeyMissing: string :=
    "`app_key` is not present, either provide `app_key` in `options` or use environment variable `DD_APP_KEY`"

  /** The four properties the constructor sets. */
  datatype LegacyClient = LegacyClient(apiKey: Value, appKey: Value, apiVersion: Value, apiHost: Value)

  /** `process.env[name]`: a string, or undefined when the variable is not set. */
  function EnvVar(env: map<string, string>, name: string): (v: Value)
    ensures v.Str? <==> name in env
    ensures v.Str? ==> v.s == env[name]
    ensures name !in env ==> v == Undefined
  {
    if name in env then Str(env[name]) else Undefined
  }

  /** `options = (options) ? options : {}`. */
  function OptionsOrEmpty(options: Value): (o: Value)
    ensures Truthy(options) ==> o == options
    ensures !Truthy(options) ==> o == EmptyObject
  {
    if Truthy(options) then options else EmptyObject
  }

  /** `(options[key]) ? options[key] : process.env[name]`. */
  function Setting(options: Value, key: string, env: map<string, string>, name: string): (v: Value)
    ensures Truthy(Prop(OptionsOrEmpty(options), key)) ==> v == Prop(OptionsOrEmpty(options), key)
    ensures !Truthy(Prop(OptionsOrEmpty(options), key)) ==> v == EnvVar(env, name)
  {
    var o := OptionsOrEmpty(options);
    if Truthy(Prop(o, key)) then Prop(o, key) else EnvVar(env, name)
  }

  /**
   * `new http_client(options)` as written: the guard after reading `app_key`
   * tests `api_key` again, so only a missing api key throws.
   */
  function NewAsWritten(options: Value, env: map<string, string>): (r: Result<LegacyClient, Error>)
    ensures r.Err? <==> !Truthy(Setting(options, "api_key", env, "DD_API_KEY"))
    ensures r.Err? ==> r.error == Thrown(ApiKeyMissing)
    ensures r.Ok? ==> Truthy(r.value.apiKey) && Truthy(r.value.apiVersion) && Truthy(r.value.apiHost)
    ensures r.Ok? ==> r.value.apiKey == Setting(options, "api_key", env, "DD_API_KEY")
    ensures r.Ok? ==> r.value.appKey == Setting(options, "app_key", env, "DD_APP_KEY")
    ensures r.Ok? ==> r.value.apiVersion == Or(Setting(options, "api_version", env, "DD_API_VERSION"), Str(DatadogClient.DefaultVersion))
    ensures r.Ok? ==> r.value.apiHost == Or(Setting(options, "api_host", env, "DD_API_HOST"), Str(DatadogClient.DefaultHost))
  {
    var apiKey := Setting(options, "api_key", env, "DD_API_KEY");
    if !Truthy(apiKey) then Err(Thrown(ApiKeyMissing))
    else
      var appKey := Setting(options, "app_key", env, "DD_APP_KEY");
      if !Truthy(apiKey) then Err(Thrown(AppKeyMissing))
      else
        var version := Or(Setting(options, "api_version", env, "DD_API_VERSION"), Str(DatadogClient.DefaultVersion));
        var host := Or(Setting(options, "api_host", env, "DD_API_HOST"), Str(DatadogClient.DefaultHost));
        Ok(LegacyClient(apiKey, appKey, version, host))
  }

  /** The constructor with its second guard testing `app_key`, as its message says. */
  function New(options: Value, env: map<string, string>): (r: Result<LegacyClient, Error>)
    ensures r.Ok? <==> (Truthy(Setting(options, "api_key", env, "DD_API_KEY"))
                     && Truthy(Setting(options, "app_key", env, "DD_APP_KEY")))
    ensures r.Err? && !Truthy(Setting(options, "api_key", env, "DD_API_KEY")) ==> r.error == Thrown(ApiKeyMissing)
    ensures r.Err? && Truthy(Setting(options, "api_key", env, "DD_API_KEY")) ==> r.error == Thrown(AppKeyMissing)
    ensures r.Ok? ==> (Truthy(r.value.apiKey) && Truthy(r.value.appKey)
                   && Truthy(r.value.apiVersion) && Truthy(r.value.apiHost))
    ensures r.Ok? ==> r.value.apiKey == Setting(options, "api_key", env, "DD_API_KEY")
    ensures r.Ok? ==> r.value.appKey == Setting(options, "app_key", env, "DD_APP_KEY")
    ensures r.Ok? ==> r.value.apiVersion == Or(Setting(options, "api_version", env, "DD_API_VERSION"), Str(DatadogClient.DefaultVersion))
    ensures r.Ok? ==> r.value.apiHost == Or(Setting(options, "api_host", env, "DD_API_HOST"), Str(DatadogClient.DefaultHost))
  {
    var apiKey := Setting(options, "api_key", env, "DD_API_KEY");
    if !Truthy(apiKey) then Err(Thrown(ApiKeyMissing))
    else
      var appKey := Setting(options, "app_key", env, "DD_APP_KEY");
      if !Truthy(appKey) then Err(Thrown(AppKeyMissing))
      else
        var version := Or(Setting(options, "api_version", env, "DD_API_VERSION"), Str(DatadogClient.DefaultVersion));
        var host := Or(Setting(options, "api_host", env, "DD_API_HOST"), Str(DatadogClient.DefaultHost));
        Ok(LegacyClient(apiKey, appKey, version, host))
  }

  /**
   * The version and host are the option when it is truthy, else the
   * environment variable when that is a non-empty string, else the default.
   */
  lemma SettingsPrecedence(options: Value, env: map<string, string>)
    requires NewAsWritten(options, env).Ok?
    ensures var c := NewAsWritten(options, env).value;
      var o := OptionsOrEmpty(options);
      (Truthy(Prop(o, "api_version")) ==> c.apiVersion == Prop(o, "api_version"))
      && (!Truthy(Prop(o, "api_version")) && "DD_API_VERSION" in env && env["DD_API_VERSION"] != ""
          ==> c.apiVersion == Str(env["DD_API_VERSION"]))
      && (!Truthy(Prop(o, "api_version")) && ("DD_API_VERSION" !in env || env["DD_API_VERSION"] == "")
          ==> c.apiVersion == Str("v1"))
      && (Truthy(Prop(o, "api_host")) ==> c.apiHost == Prop(o, "api_host"))
      && (!Truthy(Prop(o, "api_host")) && "DD_API_HOST" in env && env["DD_API_HOST"] != ""
          ==> c.apiHost == Str(env["DD_API_HOST"]))
      && (!Truthy(Prop(o, "api_host")) && ("DD_API_HOST" !in env || env["DD_API_HOST"] == "")
          ==> c.apiHost == Str("app.datadoghq.com"))
  {
  }

  /** The written constructor accepts a missing app key: api key given, no app key anywhere. */
  lemma AppKeyGuardIneffective()
    ensures var r := NewAsWritten(Obj(map["api_key" := Str("k")]), map[]);
      r.Ok? && r.value.appKey == Undefined
    ensures New(Obj(map["api_key" := Str("k")]), map[]) == Err(Thrown(AppKeyMissing))
  {
  }

  /** The two constructors agree on every input that supplies an app key. */
  lemma NewAgreesWhenAppKeyGiven(options: Value, env: map<string, string>)
    requires Truthy(Setting(options, "app_key", env, "DD_APP_KEY"))
    ensures New(options, env) == NewAsWritten(options, env)
  {
  }

  // ---------------------------------------------------------------------------
  // the request

  /**
   * The params and callback of `request`: the three-argument form with a
   * function has params `{}`, and `params || {}` replaces any falsy params.
   */
  function LegacyArgs(rest: seq<Value>): (s: Shifted)
    ensures !IsNullish(s.value)
    ensures |rest| == 1 && IsFunction(rest[0]) ==> s == Shifted(EmptyObject, rest[0])
    ensures !(|rest| == 1 && IsFunction(rest[0])) ==> s == Shifted(Or(Arg(rest, 0), EmptyObject), Arg(rest, 1))
  {
    if |rest| == 1 && IsFunction(rest[0]) then Shifted(EmptyObject, rest[0])
    else Shifted(Or(Arg(rest, 0), EmptyObject), Arg(rest, 1))
  }

  /** The body after serialisation, for the params the call carries. */
  function LegacyBody(codec: Codec, call: Call): Value {
    Payload(codec, Prop(LegacyArgs(call.rest).value, "body"))
  }

  /** `hostname`, `port` and `method`, and nothing of the caller's. */
  function BaseOptions(c: LegacyClient, verb: string): map<string, Value> {
    map["hostname" := c.apiHost, "port" := Num(DatadogClient.HttpsPort), "method" := Str(verb)]
  }

  /**
   * `request` as written, up to handing the request to `https`: on POST and
   * PUT the Content-Length header is the body's `length`, which throws for a
   * missing body, and `req.write` refuses anything but a string.
   */
  function RequestAsWritten(c: LegacyClient, codec: Codec, call: Call): (r: Result<HttpRequest, Error>)
    ensures r.Err? <==> IsWrite(Text.ToUpper(call.verb)) && !LegacyBody(codec, call).Str?
    ensures r.Err? ==> r.error == if IsNullish(LegacyBody(codec, call)) then TypeError("length") else TypeError("write")
    ensures r.Ok? ==> r.value.pathname == "/api/" + ToString(c.apiVersion) + call.path
    ensures r.Ok? ==> r.value.query == MergedQuery(c.apiKey, c.appKey, Prop(LegacyArgs(call.rest).value, "query"))
    ensures r.Ok? ==> (r.value.payload.Some? <==> IsWrite(Text.ToUpper(call.verb)))
    ensures r.Ok? && r.value.payload.None? ==> r.value.options == BaseOptions(c, Text.ToUpper(call.verb))
    ensures r.Ok? && r.value.payload.Some? ==>
      r.value.payload.value == LegacyBody(codec, call).s
      && r.value.options == BaseOptions(c, Text.ToUpper(call.verb))["headers" := Obj(map[
           "Content-Type" := Str(DatadogClient.JsonType),
           "Content-Length" := Num(Text.Utf16Length(r.value.payload.value))])]
  {
    var params := LegacyArgs(call.rest).value;
    var body := Payload(codec, Prop(params, "body"));
    var query := MergedQuery(c.apiKey, c.appKey, Prop(params, "query"));
    var pathname := "/api/" + ToString(c.apiVersion) + call.path;
    var verb := Text.ToUpper(call.verb);
    var options := BaseOptions(c, verb);
    if IsWrite(verb) then
      var length :- Read(body, "length");
      if !body.Str? then Err(TypeError("write"))
      else
        var headers := Obj(map["Content-Type" := Str(DatadogClient.JsonType), "Content-Length" := length]);
        Ok(HttpRequest(options["headers" := headers], pathname, query, Some(body.s)))
    else
      Ok(HttpRequest(options, pathname, query, None))
  }

  /** `request` with Content-Length counted in bytes, as `Buffer.byteLength` does in lib/client.js. */
  function Request(c: LegacyClient, codec: Codec, call: Call): (r: Result<HttpRequest, Error>)
    ensures r.Err? <==> IsWrite(Text.ToUpper(call.verb)) && !LegacyBody(codec, call).Str?
    ensures r.Ok? && r.value.payload.Some? ==>
      r.value.options == BaseOptions(c, Text.ToUpper(call.verb))["headers" := Obj(map[
           "Content-Type" := Str(DatadogClient.JsonType),
           "Content-Length" := Num(|Utf8(r.value.payload.value)|)])]
  {
    match RequestAsWritten(c, codec, call)
    case Err(e) => Err(e)
    case Ok(req) =>
      if req.payload.Some? then
        var headers := Obj(map["Content-Type" := Str(DatadogClient.JsonType),
                               "Content-Length" := Num(|Utf8(req.payload.value)|)]);
        Ok(req.(options := req.options["headers" := headers]))
      else Ok(req)
  }

  /** The two requests differ at most in the Content-Length header. */
  lemma RequestDiffersOnlyInLength(c: LegacyClient, codec: Codec, call: Call)
    ensures RequestAsWritten(c, codec, call).Err? <==> Request(c, codec, call).Err?
    ensures RequestAsWritten(c, codec, call).Ok? ==>
      var w := RequestAsWritten(c, codec, call).value;
      var f := Request(c, codec, call).value;
      w.pathname == f.pathname && w.query == f.query && w.payload == f.payload
      && w.options.Keys == f.options.Keys
      && forall k :: k in w.options && k != "headers" ==> w.options[k] == f.options[k]
  {
  }

  /**
   * The header the written client sends equals the number of bytes written
   * exactly when the body is ASCII; otherwise it is short.
   */
  lemma ContentLengthExactIffAscii(c: LegacyClient, codec: Codec, call: Call)
    requires RequestAsWritten(c, codec, call).Ok? && RequestAsWritten(c, codec, call).value.payload.Some?
    ensures var body := RequestAsWritten(c, codec, call).value.payload.value;
      Text.Utf16Length(body) <= |Utf8(body)|
    ensures var body := RequestAsWritten(c, codec, call).value.payload.value;
      RequestAsWritten(c, codec, call).value.options == Request(c, codec, call).value.options <==> IsAscii(body)
  {
    var req := RequestAsWritten(c, codec, call).value;
    var body := req.payload.value;
    UnitsAreBytesIffAscii(body);
    UnitsAtMostBytes(body);
    var fixed := Request(c, codec, call).value;
    if req.options == fixed.options {
      assert req.options["headers"].fields["Content-Length"] == fixed.options["headers"].fields["Content-Length"];
    }
  }

  /** A one-character body "é": the header says 1, two bytes go out. */
  lemma ContentLengthShortForAccent(c: LegacyClient, codec: Codec)
    ensures var call := WithBody("post", "/screen", Str("é"), Undefined);
      var w := RequestAsWritten(c, codec, call);
      var f := Request(c, codec, call);
      w.Ok? && f.Ok?
      && Has(w.value.options, "headers", Obj(map["Content-Type" := Str("application/json"), "Content-Length" := Num(1)]))
      && Has(f.value.options, "headers", Obj(map["Content-Type" := Str("application/json"), "Content-Length" := Num(2)]))
  {
    var call := WithBody("post", "/screen", Str("é"), Undefined);
    assert LegacyBody(codec, call) == Str("é") by {
      assert LegacyArgs(call.rest).value == Obj(map["body" := Str("é")]);
    }
    assert Text.ToUpper("post") == "POST";
    assert Text.Utf16Length("é") == 1;
    assert |Utf8("é")| == 2 by {
      assert Utf8("é") == EncodeChar('é') + Utf8([]);
    }
  }

  // ---------------------------------------------------------------------------
  // the response

  /**
   * The 'end' handler: a body that does not parse is passed on as the text
   * itself; a truthy `errors` field becomes the error and nulls the data.
   */
  function Interpret(text: string, parsed: Option<Value>, status: int): (r: Result<Outcome, Error>)
    ensures r.Err? <==> parsed.Some? && IsNullish(parsed.value)
    ensures r.Err? ==> r.error == TypeError("errors")
    ensures parsed.None? ==> r == Ok(Outcome(Null, Str(text), status))
    ensures r.Ok? && parsed.Some? ==>
      if Truthy(Prop(parsed.value, "errors")) then r.value == Outcome(Prop(parsed.value, "errors"), Null, status)
      else r.value == Outcome(Null, parsed.value, status)
  {
    var data := if parsed.Some? then parsed.value else Str(text);
    var errors :- Read(data, "errors");
    if Truthy(errors) then Ok(Outcome(errors, Null, status)) else Ok(Outcome(Null, data, status))
  }

  /** Both clients read a parsed body alike; they part only on text that is not JSON. */
  lemma InterpretMatchesClient(text: string, parsed: Option<Value>, status: int)
    ensures parsed.Some? ==> Interpret(text, parsed, status) == DatadogClient.Interpret(parsed, status)
    ensures parsed.None? ==> (Interpret(text, parsed, status).value.data == Str(text)
                          && DatadogClient.Interpret(parsed, status).value.data == EmptyObject)
  {
  }

  /** What the callback receives when the exchange ends with `ev`. */
  function Finish(callback: Value, ev: Event): (c: Completion)
    ensures ev.RequestFailed? ==> c == Deliver(callback, Outcome(ev.err, Null, 0))
    ensures ev.StreamFailed? ==> c == Deliver(callback, Outcome(ev.err, Null, ev.status))
    ensures ev.Ended? ==> (c.Crashed? <==> ev.parsed.Some? && IsNullish(ev.parsed.value))
    ensures ev.Ended? && ev.parsed.None? ==> c == Deliver(callback, Outcome(Null, Str(ev.text), ev.status))
    ensures ev.Ended? && c.Crashed? ==> c.error == TypeError("errors")
    ensures ev.Ended? && ev.parsed.Some? && !IsNullish(ev.parsed.value) ==>
      c == Deliver(callback, Interpret(ev.text, ev.parsed, ev.status).value)
  {
    match ev
    case RequestFailed(err) => Deliver(callback, Outcome(err, Null, 0))
    case StreamFailed(err, status) => Deliver(callback, Outcome(err, Null, status))
    case Ended(text, parsed, status) =>
      match Interpret(text, parsed, status)
      case Err(e) => Crashed(e)
      case Ok(o) => Deliver(callback, o)
  }

  /** What the callback of `call` receives. */
  function Complete(call: Call, ev: Event): Completion {
    Finish(LegacyArgs(call.rest).callback, ev)
  }

  /**
   * A three-argument call with a callback on a verb that sends no body:
   * the path under the API version, the verb in capitals, only the two
   * keys as the query, and nothing written.
   */
  lemma BareRead(c: LegacyClient, codec: Codec, verb: string, path: string, callback: Value)
    requires IsFunction(callback) && !IsWrite(Text.ToUpper(verb))
    ensures Request(c, codec, Bare(verb, path, callback))
         == Ok(HttpRequest(BaseOptions(c, Text.ToUpper(verb)), "/api/" + ToString(c.apiVersion) + path,
                           map["api_key" := c.apiKey, "application_key" := c.appKey], None))
  {
  }

  /**
   * The mixins' three-argument calls never throw for want of params here,
   * even with no callback, where lib/client.js throws reading `params.body`.
   */
  lemma BareCallsAlwaysBuild(c: LegacyClient, codec: Codec, verb: string, path: string, callback: Value)
    requires !IsWrite(Text.ToUpper(verb))
    ensures Request(c, codec, Bare(verb, path, callback)).Ok?
    ensures !IsFunction(callback) && IsNullish(callback) ==>
      forall dc: DatadogClient.Client :: dc.Request(codec, Bare(verb, path, callback)).Err?
  {
  }
}
