/**
 * lib/api/screenboard.js: creating, removing, reading and sharing
 * screenboards (the /screen endpoints), and the `screenboard` command line.
 */
module Screenboard {
  import opened Wrappers
  import opened Js
  import opened Calls
  import Text
  import opened Http
  import DatadogClient

  /** `if (typeof options !== 'object') options = {}`: null is kept, as `typeof null` is "object". */
  function Options(v: Value): (o: Value)
    ensures IsObjectType(v) ==> o == v
    ensures !IsObjectType(v) ==> o == EmptyObject
    ensures o.Null? <==> v.Null?
  {
    if IsObjectType(v) then v else EmptyObject
  }

  /** `body[key] = options[source]` when that option is truthy. */
  function CopyTruthy(m: map<string, Value>, key: string, o: Value, source: string): (r: map<string, Value>)
    ensures Truthy(Prop(o, source)) ==> r == m[key := Prop(o, source)]
    ensures !Truthy(Prop(o, source)) ==> r == m
  {
    if Truthy(Prop(o, source)) then m[key := Prop(o, source)] else m
  }

  /**
   * The body `create` sends for (non-null) options `o`: title, description
   * and graphs, plus template_variables, width and height for the truthy
   * options among templateVariables, width and height.
   */
  function Board(title: Value, description: Value, graphs: Value, o: Value): (m: map<string, Value>)
    ensures m.Keys <= {"title", "description", "graphs", "template_variables", "width", "height"}
    ensures Has(m, "title", title) && Has(m, "description", description) && Has(m, "graphs", graphs)
    ensures HasWhen(m, "template_variables", Truthy(Prop(o, "templateVariables")), Prop(o, "templateVariables"))
    ensures HasWhen(m, "width", Truthy(Prop(o, "width")), Prop(o, "width"))
    ensures HasWhen(m, "height", Truthy(Prop(o, "height")), Prop(o, "height"))
  {
    var m := map["title" := title, "description" := description, "graphs" := graphs];
    var m := CopyTruthy(m, "template_variables", o, "templateVariables");
    var m := CopyTruthy(m, "width", o, "width");
    CopyTruthy(m, "height", o, "height")
  }

  /**
   * `create(title, description, graphs, [options], callback)`: POST /screen.
   * A non-object options value is replaced by `{}`, but a null one makes
   * reading `options.templateVariables` throw.
   */
  function Create(args: seq<Value>): (r: Result<Call, Error>)
    ensures var sh := Optional(args, 3, EmptyObject);
      r.Err? <==> sh.value.Null?
    ensures r.Err? ==> r.error == TypeError("templateVariables")
    ensures var sh := Optional(args, 3, EmptyObject);
      r.Ok? ==> r.value == WithBody("POST", "/screen",
        Obj(Board(Arg(args, 0), Arg(args, 1), Arg(args, 2), Options(sh.value))), sh.callback)
  {
    var sh := Optional(args, 3, EmptyObject);
    var o := Options(sh.value);
    if o.Null? then Err(TypeError("templateVariables"))
    else Ok(WithBody("POST", "/screen", Obj(Board(Arg(args, 0), Arg(args, 1), Arg(args, 2), o)), sh.callback))
  }

  /**
   * Options of a type other than object are ignored: the body is that of a
   * call without options.
   */
  lemma CreateIgnoresNonObjectOptions(title: Value, description: Value, graphs: Value, options: Value, callback: Value)
    requires !IsObjectType(options) && !IsFunction(options)
    requires IsFunction(callback)
    ensures Create([title, description, graphs, options, callback]) == Create([title, description, graphs, callback])
    ensures Create([title, description, graphs, callback]).Ok?
    ensures BodyFields(Create([title, description, graphs, callback]).value).Keys == {"title", "description", "graphs"}
  {
    var long := [title, description, graphs, options, callback];
    var short := [title, description, graphs, callback];
    assert Optional(long, 3, EmptyObject) == Shifted(options, callback);
    assert Optional(short, 3, EmptyObject) == Shifted(EmptyObject, callback);
  }

  /** A zero or empty width or height is not sent, as `if (options.width)` skips it. */
  lemma CreateDropsFalsySize(title: Value, description: Value, graphs: Value, callback: Value)
    ensures var r := Create([title, description, graphs,
      Obj(map["width" := Num(0), "height" := Str("")]), callback]);
      r.Ok? && "width" !in BodyFields(r.value) && "height" !in BodyFields(r.value)
  {
    var o := Obj(map["width" := Num(0), "height" := Str("")]);
    assert Prop(o, "width") == Num(0) && Prop(o, "height") == Str("");
    assert Optional([title, description, graphs, o, callback], 3, EmptyObject) == Shifted(o, callback);
  }

  /** `remove(boardId, callback)`: DELETE /screen/{id}, in the three-argument form. */
  function Remove(id: Value, callback: Value): Call
  {
    Bare("DELETE", Format("/screen/", id, ""), callback)
  }

  /**
   * With a function callback: DELETE /api/{version}/screen/{id}, carrying only the
   * two keys and no body; with no callback, reading `params.body` throws.
   */
  lemma RemoveRequest(c: DatadogClient.Client, codec: Codec, id: Value, callback: Value)
    requires IsFunction(callback)
    ensures var r := c.Request(codec, Remove(id, callback));
      r.Ok? && r.value.pathname == "/api/" + ToString(c.apiVersion) + "/screen/" + ToString(id)
      && Has(r.value.options, "method", Str("DELETE")) && r.value.payload == None
      && r.value.query == map["api_key" := c.apiKey, "application_key" := c.appKey]
    ensures c.Request(codec, Remove(id, Undefined)) == Err(TypeError("body"))
  {
    assert c.Request(codec, Remove(id, Undefined)) == Err(TypeError("body")) by {
      DatadogClient.BareCall(c, codec, "DELETE", Format("/screen/", id, ""), Undefined);
    }
    var api := "/api/" + ToString(c.apiVersion);
    FormatUnder(api, "/screen/", id);
    Text.UpperVerbs();
    DatadogClient.BareCall(c, codec, "DELETE", Format("/screen/", id, ""), callback);
  }

  /** `get(boardId, callback)`: GET /screen/{id}, in the three-argument form. */
  function Get(id: Value, callback: Value): Call
  {
    Bare("GET", Format("/screen/", id, ""), callback)
  }

  /**
   * With a function callback: GET /api/{version}/screen/{id}, carrying only the
   * two keys and no body; with no callback, reading `params.body` throws.
   */
  lemma GetRequest(c: DatadogClient.Client, codec: Codec, id: Value, callback: Value)
    requires IsFunction(callback)
    ensures var r := c.Request(codec, Get(id, callback));
      r.Ok? && r.value.pathname == "/api/" + ToString(c.apiVersion) + "/screen/" + ToString(id)
      && Has(r.value.options, "method", Str("GET")) && r.value.payload == None
      && r.value.query == map["api_key" := c.apiKey, "application_key" := c.appKey]
    ensures c.Request(codec, Get(id, Undefined)) == Err(TypeError("body"))
  {
    assert c.Request(codec, Get(id, Undefined)) == Err(TypeError("body")) by {
      DatadogClient.BareCall(c, codec, "GET", Format("/screen/", id, ""), Undefined);
    }
    var api := "/api/" + ToString(c.apiVersion);
    FormatUnder(api, "/screen/", id);
    Text.UpperVerbs();
    DatadogClient.BareCall(c, codec, "GET", Format("/screen/", id, ""), callback);
  }

  /** `getAll(callback)`: GET /screen, in the three-argument form. */
  function GetAll(callback: Value): Call
  {
    Bare("GET", "/screen", callback)
  }

  /**
   * With a function callback: GET /api/{version}/screen, carrying only the
   * two keys and no body; with no callback, reading `params.body` throws.
   */
  lemma GetAllRequest(c: DatadogClient.Client, codec: Codec, callback: Value)
    requires IsFunction(callback)
    ensures var r := c.Request(codec, GetAll(callback));
      r.Ok? && r.value.pathname == "/api/" + ToString(c.apiVersion) + "/screen"
      && Has(r.value.options, "method", Str("GET")) && r.value.payload == None
      && r.value.query == map["api_key" := c.apiKey, "application_key" := c.appKey]
    ensures c.Request(codec, GetAll(Undefined)) == Err(TypeError("body"))
  {
    assert c.Request(codec, GetAll(Undefined)) == Err(TypeError("body")) by {
      DatadogClient.BareCall(c, codec, "GET", "/screen", Undefined);
    }
    Text.UpperVerbs();
    DatadogClient.BareCall(c, codec, "GET", "/screen", callback);
  }

  /** `share(boardId, callback)`: GET /screen/share/{id}, in the three-argument form. */
  function Share(id: Value, callback: Value): Call
  {
    Bare("GET", Format("/screen/share/", id, ""), callback)
  }

  /**
   * With a function callback: GET /api/{version}/screen/share/{id}, carrying only the
   * two keys and no body; with no callback, reading `params.body` throws.
   */
  lemma ShareRequest(c: DatadogClient.Client, codec: Codec, id: Value, callback: Value)
    requires IsFunction(callback)
    ensures var r := c.Request(codec, Share(id, callback));
      r.Ok? && r.value.pathname == "/api/" + ToString(c.apiVersion) + "/screen/share/" + ToString(id)
      && Has(r.value.options, "method", Str("GET")) && r.value.payload == None
      && r.value.query == map["api_key" := c.apiKey, "application_key" := c.appKey]
    ensures c.Request(codec, Share(id, Undefined)) == Err(TypeError("body"))
  {
    assert c.Request(codec, Share(id, Undefined)) == Err(TypeError("body")) by {
      DatadogClient.BareCall(c, codec, "GET", Format("/screen/share/", id, ""), Undefined);
    }
    var api := "/api/" + ToString(c.apiVersion);
    FormatUnder(api, "/screen/share/", id);
    Text.UpperVerbs();
    DatadogClient.BareCall(c, codec, "GET", Format("/screen/share/", id, ""), callback);
  }

  /** `o[key] = parseInt(flag)` when the flag is given. */
  function SizeOption(o: map<string, Value>, key: string, flag: Value): (r: map<string, Value>)
    ensures Truthy(flag) ==> r == o[key := ParseInt(flag)]
    ensures !Truthy(flag) ==> r == o
  {
    if Truthy(flag) then o[key := ParseInt(flag)] else o
  }

  /** Width and height added to `o`, each only when its flag is given. */
  function Sizes(o: map<string, Value>, width: Value, height: Value): (r: map<string, Value>)
    requires "width" !in o && "height" !in o
    ensures r.Keys <= o.Keys + {"width", "height"}
    ensures forall k :: k in o ==> Has(r, k, o[k])
    ensures HasWhen(r, "width", Truthy(width), ParseInt(width))
    ensures HasWhen(r, "height", Truthy(height), ParseInt(height))
  {
    SizeOption(SizeOption(o, "width", width), "height", height)
  }

  /**
   * The options object the command line builds: templateVariables parsed
   * from `--tmpvars`, width and height converted with `parseInt`, each only
   * when its flag is given.
   */
  function CliOptions(codec: Codec, args: CliArgs): (r: Result<map<string, Value>, Error>)
    ensures r.Err? <==> Truthy(args.Flag("tmpvars")) && codec.parse(ToString(args.Flag("tmpvars"))).None?
    ensures r.Ok? ==> r.value.Keys <= {"templateVariables", "width", "height"}
    ensures r.Ok? ==> HasWhen(r.value, "width", Truthy(args.Flag("width")), ParseInt(args.Flag("width")))
    ensures r.Ok? ==> HasWhen(r.value, "height", Truthy(args.Flag("height")), ParseInt(args.Flag("height")))
    ensures r.Ok? ==> ("templateVariables" in r.value <==> Truthy(args.Flag("tmpvars")))
  {
    var width := args.Flag("width");
    var height := args.Flag("height");
    if Truthy(args.Flag("tmpvars")) then
      match ParseJson(codec, ToString(args.Flag("tmpvars")))
      case Ok(v) => Ok(Sizes(map["templateVariables" := v], width, height))
      case Err(e) => Err(e)
    else Ok(Sizes(map[], width, height))
  }

  /**
   * `handleCli(subcommand, args, callback)`: get, getall, remove and share
   * by id, and create with the graphs parsed from JSON.
   */
  function HandleCli(codec: Codec, subcommand: string, args: CliArgs, callback: Value): (r: Result<Cli, Error>)
    ensures subcommand !in {"get", "getall", "remove", "share", "create"} ==> r == Ok(Refuse(Unknown("screenboard")))
    ensures subcommand == "get" ==> r == Ok(Dispatch(Get(args.Pos(4), callback)))
    ensures subcommand == "getall" ==> r == Ok(Dispatch(GetAll(callback)))
    ensures subcommand == "remove" ==> r == Ok(Dispatch(Remove(args.Pos(4), callback)))
    ensures subcommand == "share" ==> r == Ok(Dispatch(Share(args.Pos(4), callback)))
    ensures subcommand == "create" ==>
      (r.Err? <==> codec.parse(ToString(args.Pos(6))).None? || CliOptions(codec, args).Err?)
    ensures subcommand == "create" && r.Ok? ==>
      (r.value.Dispatch? && r.value.call.verb == "POST" && r.value.call.path == "/screen")
  {
    if subcommand == "get" then Ok(Dispatch(Get(args.Pos(4), callback)))
    else if subcommand == "getall" then Ok(Dispatch(GetAll(callback)))
    else if subcommand == "remove" then Ok(Dispatch(Remove(args.Pos(4), callback)))
    else if subcommand == "share" then Ok(Dispatch(Share(args.Pos(4), callback)))
    else if subcommand == "create" then
      var graphs :- ParseJson(codec, ToString(args.Pos(6)));
      var options :- CliOptions(codec, args);
      Lift(Create([args.Pos(4), args.Pos(5), graphs, Obj(options), callback]))
    else Ok(Refuse(Unknown("screenboard")))
  }

  /**
   * A `--width` that `parseInt` cannot read gives NaN, which is falsy, so
   * the command line creates the board without a width.
   */
  lemma CliUnreadableWidthDropped(codec: Codec, args: CliArgs, callback: Value)
    requires Truthy(args.Flag("width")) && ParseInt(args.Flag("width")) == NaN
    requires HandleCli(codec, "create", args, callback).Ok?
    ensures "width" !in BodyFields(HandleCli(codec, "create", args, callback).value.call)
  {
    CliCreate(codec, args, callback);
    var options := CliOptions(codec, args).value;
    FalsyWhen(options, "width", Truthy(args.Flag("width")), ParseInt(args.Flag("width")));
    FalsyWidthDropped(args.Pos(4), args.Pos(5), ParseJson(codec, ToString(args.Pos(6))).value, options, callback);
  }

  /** A `create` the command line lets through calls `create` with the parsed graphs and the flag options. */
  lemma CliCreate(codec: Codec, args: CliArgs, callback: Value)
    requires HandleCli(codec, "create", args, callback).Ok?
    ensures ParseJson(codec, ToString(args.Pos(6))).Ok? && CliOptions(codec, args).Ok?
    ensures HandleCli(codec, "create", args, callback) == Lift(Create([args.Pos(4), args.Pos(5),
      ParseJson(codec, ToString(args.Pos(6))).value, Obj(CliOptions(codec, args).value), callback]))
  {
  }

  /** Options whose width is falsy create a board without a width. */
  lemma FalsyWidthDropped(title: Value, description: Value, graphs: Value, options: map<string, Value>, callback: Value)
    requires !Truthy(Prop(Obj(options), "width"))
    ensures var r := Create([title, description, graphs, Obj(options), callback]);
      r.Ok? && "width" !in BodyFields(r.value)
  {
    assert Optional([title, description, graphs, Obj(options), callback], 3, EmptyObject).value == Obj(options);
  }
}
