/**
 * lib/api/timeboard.js: creating, updating, removing and reading
 * timeboards (the /dash endpoints), and the `timeboard` command line.
 */
module Timeboard {
  import opened Wrappers
  import opened Js
  import opened Calls
  import opened Http
  import DatadogClient
  import Text

  /** `Array.isArray(v) && v.length > 0`. */
  predicate NonEmptyArray(v: Value) {
    v.Arr? && |v.items| > 0
  }

  /**
   * The body `create` and `update` send: title, description and graphs,
   * with template_variables only when it is a non-empty array.
   */
  function Board(title: Value, description: Value, graphs: Value, templateVariables: Value): (m: map<string, Value>)
    ensures m.Keys <= {"title", "description", "graphs", "template_variables"}
    ensures Has(m, "title", title) && Has(m, "description", description) && Has(m, "graphs", graphs)
    ensures HasWhen(m, "template_variables", NonEmptyArray(templateVariables), templateVariables)
  {
    var m := map["title" := title, "description" := description, "graphs" := graphs];
    if NonEmptyArray(templateVariables) then m["template_variables" := templateVariables] else m
  }

  /** `create(title, description, graphs, [templateVariables], callback)`: POST /dash. */
  function Create(args: seq<Value>): (c: Call)
    ensures c.verb == "POST" && c.path == "/dash"
    ensures var sh := Optional(args, 3, Arr([]));
      c.rest == [Obj(map["body" := Obj(Board(Arg(args, 0), Arg(args, 1), Arg(args, 2), sh.value))]), sh.callback]
  {
    var sh := Optional(args, 3, Arr([]));
    WithBody("POST", "/dash", Obj(Board(Arg(args, 0), Arg(args, 1), Arg(args, 2), sh.value)), sh.callback)
  }

  /** `update(dashId, title, description, graphs, [templateVariables], callback)`: PUT /dash/{id}. */
  function Update(args: seq<Value>): (c: Call)
    ensures c.verb == "PUT" && c.path == Format("/dash/", Arg(args, 0), "")
    ensures var sh := Optional(args, 4, Arr([]));
      c.rest == [Obj(map["body" := Obj(Board(Arg(args, 1), Arg(args, 2), Arg(args, 3), sh.value))]), sh.callback]
  {
    var sh := Optional(args, 4, Arr([]));
    WithBody("PUT", Format("/dash/", Arg(args, 0), ""), Obj(Board(Arg(args, 1), Arg(args, 2), Arg(args, 3), sh.value)), sh.callback)
  }

  /** With the callback fourth, no template_variables key is sent, as with an explicit `[]`. */
  lemma CreateOmittedTemplateVariables(title: Value, description: Value, graphs: Value, callback: Value)
    requires IsFunction(callback)
    ensures Create([title, description, graphs, callback]) == Create([title, description, graphs, Arr([]), callback])
    ensures "template_variables" !in BodyFields(Create([title, description, graphs, callback]))
  {
    OmittedIsFallback([title, description, graphs], Arr([]), callback);
  }

  /** `create` and `update` send the same body for the same board, to different endpoints. */
  lemma CreateUpdateSameBody(id: Value, title: Value, description: Value, graphs: Value, tv: Value, callback: Value)
    ensures BodyOf(Create([title, description, graphs, tv, callback]))
         == BodyOf(Update([id, title, description, graphs, tv, callback]))
  {
    assert Optional([title, description, graphs, tv, callback], 3, Arr([])).value == tv;
    assert Optional([id, title, description, graphs, tv, callback], 4, Arr([])).value == tv;
  }

  /** `remove(dashId, callback)`: DELETE /dash/{id} with params `{}`. */
  function Remove(id: Value, callback: Value): Call
  {
    WithParams("DELETE", Format("/dash/", id, ""), map[], callback)
  }

  /** `getAll(callback)`: GET /dash with params `{}`. */
  function GetAll(callback: Value): Call
  {
    WithParams("GET", "/dash", map[], callback)
  }

  /** `get(dashId, callback)`: GET /dash/{id} with params `{}`. */
  function Get(id: Value, callback: Value): Call
  {
    WithParams("GET", Format("/dash/", id, ""), map[], callback)
  }

  /**
   * Reads and removals pass params `{}`, so the request is built whether or
   * not a callback is given (unlike the screenboard ones): `get` asks for
   * GET /api/{version}/dash/{id} with no body.
   */
  lemma GetWithoutCallback(c: DatadogClient.Client, codec: Codec, id: Value)
    ensures var r := c.Request(codec, Get(id, Undefined));
      r.Ok? && r.value.pathname == "/api/" + ToString(c.apiVersion) + "/dash/" + ToString(id)
      && Has(r.value.options, "method", Str("GET")) && r.value.payload == None
  {
    var api := "/api/" + ToString(c.apiVersion);
    FormatUnder(api, "/dash/", id);
    Text.UpperVerbs();
    DatadogClient.EmptyParamsRead(c, codec, "GET", Format("/dash/", id, ""), Undefined);
  }

  /** `getAll` without a callback asks for GET /api/{version}/dash with no body. */
  lemma GetAllWithoutCallback(c: DatadogClient.Client, codec: Codec)
    ensures var r := c.Request(codec, GetAll(Undefined));
      r.Ok? && r.value.pathname == "/api/" + ToString(c.apiVersion) + "/dash"
      && Has(r.value.options, "method", Str("GET")) && r.value.payload == None
  {
    Text.UpperVerbs();
    DatadogClient.EmptyParamsRead(c, codec, "GET", "/dash", Undefined);
  }

  /** `remove` without a callback asks for DELETE /api/{version}/dash/{id} with no body. */
  lemma RemoveWithoutCallback(c: DatadogClient.Client, codec: Codec, id: Value)
    ensures var r := c.Request(codec, Remove(id, Undefined));
      r.Ok? && r.value.pathname == "/api/" + ToString(c.apiVersion) + "/dash/" + ToString(id)
      && Has(r.value.options, "method", Str("DELETE")) && r.value.payload == None
  {
    var api := "/api/" + ToString(c.apiVersion);
    FormatUnder(api, "/dash/", id);
    Text.UpperVerbs();
    DatadogClient.EmptyParamsRead(c, codec, "DELETE", Format("/dash/", id, ""), Undefined);
  }

  /** `json.parse` of a command-line argument, which is converted to a string first. */
  function ParseArg(codec: Codec, v: Value): Result<Value, Error>
  {
    ParseJson(codec, ToString(v))
  }

  /** `--tmpvars` parsed when given, `[]` otherwise. */
  function TemplateFlag(codec: Codec, args: CliArgs): (r: Result<Value, Error>)
    ensures !Truthy(args.Flag("tmpvars")) ==> r == Ok(Arr([]))
    ensures Truthy(args.Flag("tmpvars")) ==> r == ParseJson(codec, ToString(args.Flag("tmpvars")))
  {
    if Truthy(args.Flag("tmpvars")) then ParseArg(codec, args.Flag("tmpvars")) else Ok(Arr([]))
  }

  /**
   * `handleCli(subcommand, args, callback)`: get, getall, remove, and
   * create and update with the graphs (and template variables) parsed from
   * JSON; `update` converts the id with `parseInt`.
   */
  function HandleCli(codec: Codec, subcommand: string, args: CliArgs, callback: Value): (r: Result<Cli, Error>)
    ensures subcommand !in {"get", "getall", "remove", "create", "update"} ==> r == Ok(Refuse(Unknown("timeboard")))
    ensures subcommand == "get" ==> r == Ok(Dispatch(Get(args.Pos(4), callback)))
    ensures subcommand == "getall" ==> r == Ok(Dispatch(GetAll(callback)))
    ensures subcommand == "remove" ==> r == Ok(Dispatch(Remove(args.Pos(4), callback)))
    ensures subcommand == "create" ==>
      (r.Err? <==> codec.parse(ToString(args.Pos(6))).None? || TemplateFlag(codec, args).Err?)
    ensures subcommand == "create" && r.Ok? ==>
      r.value == Dispatch(Create([args.Pos(4), args.Pos(5), ParseArg(codec, args.Pos(6)).value,
                                  TemplateFlag(codec, args).value, callback]))
    ensures subcommand == "update" ==>
      (r.Err? <==> codec.parse(ToString(args.Pos(7))).None? || TemplateFlag(codec, args).Err?)
    ensures subcommand == "update" && r.Ok? ==>
      (r.value.Dispatch? && r.value.call.path == Format("/dash/", ParseInt(args.Pos(4)), ""))
    ensures subcommand == "update" && r.Ok? ==>
      r.value == Dispatch(Update([ParseInt(args.Pos(4)), args.Pos(5), args.Pos(6), ParseArg(codec, args.Pos(7)).value,
                                  TemplateFlag(codec, args).value, callback]))
  {
    if subcommand == "get" then Ok(Dispatch(Get(args.Pos(4), callback)))
    else if subcommand == "getall" then Ok(Dispatch(GetAll(callback)))
    else if subcommand == "remove" then Ok(Dispatch(Remove(args.Pos(4), callback)))
    else if subcommand == "create" then
      var graphs :- ParseArg(codec, args.Pos(6));
      var tv :- TemplateFlag(codec, args);
      Ok(Dispatch(Create([args.Pos(4), args.Pos(5), graphs, tv, callback])))
    else if subcommand == "update" then
      var graphs :- ParseArg(codec, args.Pos(7));
      var tv :- TemplateFlag(codec, args);
      Ok(Dispatch(Update([ParseInt(args.Pos(4)), args.Pos(5), args.Pos(6), graphs, tv, callback])))
    else Ok(Refuse(Unknown("timeboard")))
  }

  /**
   * `timeboard create` with graphs that parse and no `--tmpvars`: POST /dash
   * with the title, the description and the parsed graphs, and no template
   * variables.
   */
  lemma CliCreateBoard(codec: Codec, args: CliArgs, callback: Value)
    requires codec.parse(ToString(args.Pos(6))).Some? && !Truthy(args.Flag("tmpvars"))
    ensures var r := HandleCli(codec, "create", args, callback);
      r.Ok? && r.value.Dispatch? && r.value.call.verb == "POST" && r.value.call.path == "/dash"
      && BodyFields(r.value.call) == map["title" := args.Pos(4), "description" := args.Pos(5),
                                         "graphs" := codec.parse(ToString(args.Pos(6))).value]
  {
    var graphs := codec.parse(ToString(args.Pos(6))).value;
    var a := [args.Pos(4), args.Pos(5), graphs, Arr([]), callback];
    assert Optional(a, 3, Arr([])).value == Arr([]);
    assert Arg(a, 0) == args.Pos(4) && Arg(a, 1) == args.Pos(5) && Arg(a, 2) == graphs;
    var board := Board(args.Pos(4), args.Pos(5), graphs, Arr([]));
    assert Create(a) == WithBody("POST", "/dash", Obj(board), Optional(a, 3, Arr([])).callback);
    BodyFieldsOf("POST", "/dash", board, Optional(a, 3, Arr([])).callback);
  }

  /** A command-line update of a numeric id addresses the same board as a direct update. */
  lemma CliUpdateKeepsNumericId(codec: Codec, args: CliArgs, callback: Value, n: int)
    requires args.Pos(4) == Num(n)
    requires HandleCli(codec, "update", args, callback).Ok?
    ensures HandleCli(codec, "update", args, callback).value.call.path == "/dash/" + ToString(Num(n))
  {
    ParseIntOfNum(n);
  }
}
