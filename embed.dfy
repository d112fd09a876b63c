/**
 * lib/api/embed.js: graph embeds (the /graph/embed endpoints), whose
 * `create` sends a form-encoded body, and the `embed` command line.
 */
module Embed {
  import opened Wrappers
  import opened Js
  import opened Calls
  import Text
  import opened Http
  import DatadogClient

  const FormType: string := "application/x-www-form-urlencoded"

  /**
   * `create`'s own guard: when `callback === undefined` and the options are
   * a function, that function is the callback and the options are `{}`.
   * Unlike the other modules' guards it does not look at the argument count.
   */
  function CreateArgs(args: seq<Value>): (s: Shifted)
    ensures Arg(args, 2).Undefined? && IsFunction(Arg(args, 1)) ==> s == Shifted(EmptyObject, Arg(args, 1))
    ensures !(Arg(args, 2).Undefined? && IsFunction(Arg(args, 1))) ==> s == Shifted(Arg(args, 1), Arg(args, 2))
  {
    if Arg(args, 2).Undefined? && IsFunction(Arg(args, 1)) then Shifted(EmptyObject, Arg(args, 1))
    else Shifted(Arg(args, 1), Arg(args, 2))
  }

  /**
   * The fields that are form-encoded: `graph_json` (the graph as JSON text),
   * extended by every defined property of `options || {}`, which wins over
   * `graph_json` too.
   */
  function FormFields(codec: Codec, graph: Value, options: Value): (m: map<string, Value>)
    ensures var src := OwnEnumerable(Or(options, EmptyObject));
      forall k :: k in m <==> k == "graph_json" || (k in src && src[k] != Undefined)
    ensures var src := OwnEnumerable(Or(options, EmptyObject));
      forall k :: k in src && src[k] != Undefined ==> m[k] == src[k]
    ensures var src := OwnEnumerable(Or(options, EmptyObject));
      !("graph_json" in src && src["graph_json"] != Undefined) ==> m["graph_json"] == JsonText(codec, graph)
  {
    Extend(map["graph_json" := JsonText(codec, graph)], Or(options, EmptyObject))
  }

  /**
   * `create(graphJSON, [options], callback)`: POST /graph/embed with the
   * form-encoded fields as the body and the form content type.
   */
  function Create(codec: Codec, args: seq<Value>): (c: Call)
    ensures var sh := CreateArgs(args);
      c == WithParams("POST", "/graph/embed",
        map["body" := Str(codec.formEncode(FormFields(codec, Arg(args, 0), sh.value))), "contentType" := Str(FormType)],
        sh.callback)
  {
    var sh := CreateArgs(args);
    var body := FormFields(codec, Arg(args, 0), sh.value);
    WithParams("POST", "/graph/embed",
      map["body" := Str(codec.formEncode(body)), "contentType" := Str(FormType)], sh.callback)
  }

  /**
   * Leaving the options out, with or without an explicit undefined
   * callback after them, is the same as passing `{}`.
   */
  lemma CreateOmittedOptions(codec: Codec, graph: Value, callback: Value)
    requires IsFunction(callback)
    ensures Create(codec, [graph, callback]) == Create(codec, [graph, EmptyObject, callback])
    ensures Create(codec, [graph, callback, Undefined]) == Create(codec, [graph, callback])
    ensures FormFields(codec, graph, EmptyObject) == map["graph_json" := JsonText(codec, graph)]
  {
    assert CreateArgs([graph, callback]) == Shifted(EmptyObject, callback);
    assert CreateArgs([graph, callback, Undefined]) == Shifted(EmptyObject, callback);
    assert CreateArgs([graph, EmptyObject, callback]) == Shifted(EmptyObject, callback);
  }

  /**
   * The request `create` leads to is always built: the body is the encoded
   * form text, sent with the form content type rather than JSON.
   */
  lemma CreateSendsForm(c: DatadogClient.Client, codec: Codec, args: seq<Value>)
    ensures var r := c.Request(codec, Create(codec, args));
      r.Ok? && r.value.payload == Some(codec.formEncode(FormFields(codec, Arg(args, 0), CreateArgs(args).value)))
      && "headers" in r.value.options && r.value.options["headers"].Obj?
      && Has(r.value.options["headers"].fields, "Content-Type", Str(FormType))
  {
    var sh := CreateArgs(args);
    FormRequest(c, codec, codec.formEncode(FormFields(codec, Arg(args, 0), sh.value)), sh.callback);
  }

  /** A form text posted to /graph/embed is sent as is, with the form content type. */
  lemma FormRequest(c: DatadogClient.Client, codec: Codec, text: string, callback: Value)
    ensures var r := c.Request(codec, WithParams("POST", "/graph/embed",
        map["body" := Str(text), "contentType" := Str(FormType)], callback));
      r.Ok? && r.value.payload == Some(text)
      && "headers" in r.value.options && r.value.options["headers"].Obj?
      && Has(r.value.options["headers"].fields, "Content-Type", Str(FormType))
  {
    var params := map["body" := Str(text), "contentType" := Str(FormType)];
    assert Prop(Obj(params), "contentType") == Str(FormType);
    Text.UpperVerbs();
    DatadogClient.TextBodyWrite(c, codec, "POST", "/graph/embed", params, callback);
  }

  /** `revoke(embedId, callback)`: GET /graph/embed/{id}/revoke, in the three-argument form. */
  function Revoke(id: Value, callback: Value): Call
  {
    Bare("GET", "/graph/embed/" + ToString(id) + "/revoke", callback)
  }

  /**
   * With a function callback: GET /api/{version}/graph/embed/{id}/revoke, carrying only the
   * two keys and no body; with no callback, reading `params.body` throws.
   */
  lemma RevokeRequest(c: DatadogClient.Client, codec: Codec, id: Value, callback: Value)
    requires IsFunction(callback)
    ensures var r := c.Request(codec, Revoke(id, callback));
      r.Ok? && r.value.pathname == "/api/" + ToString(c.apiVersion) + "/graph/embed/" + ToString(id) + "/revoke"
      && Has(r.value.options, "method", Str("GET")) && r.value.payload == None
      && r.value.query == map["api_key" := c.apiKey, "application_key" := c.appKey]
    ensures c.Request(codec, Revoke(id, Undefined)) == Err(TypeError("body"))
  {
    assert c.Request(codec, Revoke(id, Undefined)) == Err(TypeError("body")) by {
      DatadogClient.BareCall(c, codec, "GET", "/graph/embed/" + ToString(id) + "/revoke", Undefined);
    }
    var api := "/api/" + ToString(c.apiVersion);
    PathUnder(api, "/graph/embed/", id, "/revoke");
    Text.UpperVerbs();
    DatadogClient.BareCall(c, codec, "GET", "/graph/embed/" + ToString(id) + "/revoke", callback);
  }


  /** `getAll(callback)`: GET /graph/embed, in the three-argument form. */
  function GetAll(callback: Value): Call
  {
    Bare("GET", "/graph/embed", callback)
  }

  /**
   * With a function callback: GET /api/{version}/graph/embed, carrying only the
   * two keys and no body; with no callback, reading `params.body` throws.
   */
  lemma GetAllRequest(c: DatadogClient.Client, codec: Codec, callback: Value)
    requires IsFunction(callback)
    ensures var r := c.Request(codec, GetAll(callback));
      r.Ok? && r.value.pathname == "/api/" + ToString(c.apiVersion) + "/graph/embed"
      && Has(r.value.options, "method", Str("GET")) && r.value.payload == None
      && r.value.query == map["api_key" := c.apiKey, "application_key" := c.appKey]
    ensures c.Request(codec, GetAll(Undefined)) == Err(TypeError("body"))
  {
    assert c.Request(codec, GetAll(Undefined)) == Err(TypeError("body")) by {
      DatadogClient.BareCall(c, codec, "GET", "/graph/embed", Undefined);
    }
    Text.UpperVerbs();
    DatadogClient.BareCall(c, codec, "GET", "/graph/embed", callback);
  }


  /** `get(embedId, callback)`: GET /graph/embed/{id}, in the three-argument form. */
  function Get(id: Value, callback: Value): Call
  {
    Bare("GET", "/graph/embed/" + ToString(id), callback)
  }

  /**
   * With a function callback: GET /api/{version}/graph/embed/{id}, carrying only the
   * two keys and no body; with no callback, reading `params.body` throws.
   */
  lemma GetRequest(c: DatadogClient.Client, codec: Codec, id: Value, callback: Value)
    requires IsFunction(callback)
    ensures var r := c.Request(codec, Get(id, callback));
      r.Ok? && r.value.pathname == "/api/" + ToString(c.apiVersion) + "/graph/embed/" + ToString(id)
      && Has(r.value.options, "method", Str("GET")) && r.value.payload == None
      && r.value.query == map["api_key" := c.apiKey, "application_key" := c.appKey]
    ensures c.Request(codec, Get(id, Undefined)) == Err(TypeError("body"))
  {
    DatadogClient.BareCall(c, codec, "GET", "/graph/embed/" + ToString(id), Undefined);
    GetBuilds(c, codec, id, callback);
  }

  /** `get` with a function callback builds GET /api/{version}/graph/embed/{id} with the two keys. */
  lemma GetBuilds(c: DatadogClient.Client, codec: Codec, id: Value, callback: Value)
    requires IsFunction(callback)
    ensures var r := c.Request(codec, Get(id, callback));
      r.Ok? && r.value.pathname == "/api/" + ToString(c.apiVersion) + "/graph/embed/" + ToString(id)
      && Has(r.value.options, "method", Str("GET")) && r.value.payload == None
      && r.value.query == map["api_key" := c.apiKey, "application_key" := c.appKey]
  {
    var api := "/api/" + ToString(c.apiVersion);
    var t := ToString(id);
    assert api + ("/graph/embed/" + t) == api + "/graph/embed/" + t;
    Text.UpperVerbs();
    DatadogClient.BareCall(c, codec, "GET", "/graph/embed/" + t, callback);
  }


  /** The options the command line passes to `create`: the four flags, undefined when absent. */
  function CliOptions(args: CliArgs): (o: map<string, Value>)
    ensures o.Keys == {"timeframe", "size", "legend", "title"}
    ensures forall k :: k in o ==> o[k] == args.Flag(k)
  {
    map["timeframe" := args.Flag("timeframe"), "size" := args.Flag("size"),
        "legend" := args.Flag("legend"), "title" := args.Flag("title")]
  }

  /**
   * `handleCli(subcommand, args, callback)`: create, revoke and get need an
   * argument after the subcommand; getall does not; anything else is refused.
   */
  function HandleCli(codec: Codec, subcommand: string, args: CliArgs, callback: Value): (r: Result<Cli, Error>)
    ensures args.Count() <= 4 && subcommand != "getall" ==> r == Ok(Refuse(Unknown("embed")))
    ensures subcommand !in {"create", "revoke", "get", "getall"} ==> r == Ok(Refuse(Unknown("embed")))
    ensures subcommand == "getall" ==> r == Ok(Dispatch(GetAll(callback)))
    ensures args.Count() > 4 && subcommand == "revoke" ==> r == Ok(Dispatch(Revoke(args.Pos(4), callback)))
    ensures args.Count() > 4 && subcommand == "get" ==> r == Ok(Dispatch(Get(args.Pos(4), callback)))
    ensures args.Count() > 4 && subcommand == "create" ==>
      (r.Err? <==> codec.parse(ToString(args.Pos(4))).None?)
    ensures args.Count() > 4 && subcommand == "create" && r.Ok? ==>
      r.value == Dispatch(Create(codec, [codec.parse(ToString(args.Pos(4))).value, Obj(CliOptions(args)), callback]))
  {
    if args.Count() > 4 && subcommand == "create" then
      var graph :- ParseJson(codec, ToString(args.Pos(4)));
      Ok(Dispatch(Create(codec, [graph, Obj(CliOptions(args)), callback])))
    else if args.Count() > 4 && subcommand == "revoke" then Ok(Dispatch(Revoke(args.Pos(4), callback)))
    else if args.Count() > 4 && subcommand == "get" then Ok(Dispatch(Get(args.Pos(4), callback)))
    else if subcommand == "getall" then Ok(Dispatch(GetAll(callback)))
    else Ok(Refuse(Unknown("embed")))
  }

  /**
   * Flags not given on the command line are not sent: `extend` skips the
   * undefined options, so the form holds only graph_json.
   */
  lemma CliOmitsMissingFlags(codec: Codec, args: CliArgs, callback: Value)
    requires args.Count() > 4 && codec.parse(ToString(args.Pos(4))).Some?
    requires forall k :: k in {"timeframe", "size", "legend", "title"} ==> k !in args.flags
    ensures var r := HandleCli(codec, "create", args, callback);
      r.Ok? && r.value.call.verb == "POST"
      && FormFields(codec, codec.parse(ToString(args.Pos(4))).value, Obj(CliOptions(args)))
        == map["graph_json" := JsonText(codec, codec.parse(ToString(args.Pos(4))).value)]
  {
    var graph := codec.parse(ToString(args.Pos(4))).value;
    var o := CliOptions(args);
    assert HandleCli(codec, "create", args, callback) == Ok(Dispatch(Create(codec, [graph, Obj(o), callback])));
    assert forall k :: k in o ==> o[k] == Undefined by {
      forall k | k in o
        ensures o[k] == Undefined
      {
        assert k in {"timeframe", "size", "legend", "title"};
      }
    }
    FormOfUndefinedOptions(codec, graph, o);
  }

  /** Options whose every value is undefined add nothing to the form. */
  lemma FormOfUndefinedOptions(codec: Codec, graph: Value, o: map<string, Value>)
    requires forall k :: k in o ==> o[k] == Undefined
    ensures FormFields(codec, graph, Obj(o)) == map["graph_json" := JsonText(codec, graph)]
  {
    var fields := FormFields(codec, graph, Obj(o));
    assert OwnEnumerable(Or(Obj(o), EmptyObject)) == o;
    assert fields.Keys == {"graph_json"};
  }
}
