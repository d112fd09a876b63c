/**
 * lib/api/monitor.js: creating, reading, updating, removing, muting and
 * unmuting monitors, and the `monitor` command line.
 */
module Monitor {
  import opened Wrappers
  import opened Js
  import opened Calls
  import DatadogClient
  import Text
  import opened Http

  const OptionalKeys: set<string> := {"name", "message", "tags", "options"}

  /**
   * The fields `create` and `update` take from `properties` when it is
   * object-typed: name, message and tags when truthy, options when it is
   * object-typed. A null `properties` throws at the first read.
   */
  function PropertyFields(properties: Value): (r: Result<map<string, Value>, Error>)
    ensures r.Err? <==> properties.Null?
    ensures r.Ok? ==> r.value.Keys <= OptionalKeys
    ensures r.Ok? ==> var p := properties;
      HasWhen(r.value, "name", IsObjectType(p) && Truthy(Prop(p, "name")), Prop(p, "name"))
      && HasWhen(r.value, "message", IsObjectType(p) && Truthy(Prop(p, "message")), Prop(p, "message"))
      && HasWhen(r.value, "tags", IsObjectType(p) && Truthy(Prop(p, "tags")), Prop(p, "tags"))
      && HasWhen(r.value, "options", IsObjectType(p) && IsObjectType(Prop(p, "options")), Prop(p, "options"))
  {
    if IsObjectType(properties) then
      var name :- Read(properties, "name");
      var b1: map<string, Value> := if Truthy(name) then map["name" := name] else map[];
      var message := Prop(properties, "message");
      var b2 := if Truthy(message) then b1["message" := message] else b1;
      var tags := Prop(properties, "tags");
      var b3 := if Truthy(tags) then b2["tags" := tags] else b2;
      var options := Prop(properties, "options");
      Ok(if IsObjectType(options) then b3["options" := options] else b3)
    else
      Ok(map[])
  }

  /** `create(type, query, [properties], callback)`: POST /monitor. */
  function Create(args: seq<Value>): (r: Result<Call, Error>)
    ensures r.Err? <==> Optional(args, 2, EmptyObject).value.Null?
    ensures r.Ok? ==> (r.value.verb == "POST" && r.value.path == "/monitor"
      && r.value.rest == [Obj(map["body" := Obj(BodyFields(r.value))]), Optional(args, 2, EmptyObject).callback])
    ensures r.Ok? ==> (BodyFields(r.value)
      == map["type" := Arg(args, 0), "query" := Arg(args, 1)] + PropertyFields(Optional(args, 2, EmptyObject).value).value)
  {
    var sh := Optional(args, 2, EmptyObject);
    var fields :- PropertyFields(sh.value);
    Ok(WithBody("POST", "/monitor", Obj(map["type" := Arg(args, 0), "query" := Arg(args, 1)] + fields), sh.callback))
  }

  /** `update(monitorId, query, [properties], callback)`: PUT /monitor/{id}. */
  function Update(args: seq<Value>): (r: Result<Call, Error>)
    ensures r.Err? <==> Optional(args, 2, EmptyObject).value.Null?
    ensures r.Ok? ==> (r.value.verb == "PUT" && r.value.path == Format("/monitor/", Arg(args, 0), "")
      && r.value.rest == [Obj(map["body" := Obj(BodyFields(r.value))]), Optional(args, 2, EmptyObject).callback])
    ensures r.Ok? ==> (BodyFields(r.value)
      == map["query" := Arg(args, 1)] + PropertyFields(Optional(args, 2, EmptyObject).value).value)
  {
    var sh := Optional(args, 2, EmptyObject);
    var fields :- PropertyFields(sh.value);
    Ok(WithBody("PUT", Format("/monitor/", Arg(args, 0), ""), Obj(map["query" := Arg(args, 1)] + fields), sh.callback))
  }

  /** Omitting `properties` and passing `{}` create the same monitor, with only type and query. */
  lemma CreateOmittedProperties(kind: Value, query: Value, callback: Value)
    requires IsFunction(callback)
    ensures Create([kind, query, callback]) == Create([kind, query, EmptyObject, callback])
    ensures BodyFields(Create([kind, query, callback]).value) == map["type" := kind, "query" := query]
  {
    OmittedIsFallback([kind, query], EmptyObject, callback);
  }

  /** `create` and `update` take the same optional fields from the same properties. */
  lemma CreateUpdateShareFields(kind: Value, id: Value, query: Value, properties: Value, callback: Value)
    ensures Create([kind, query, properties, callback]).Ok? <==> Update([id, query, properties, callback]).Ok?
    ensures Create([kind, query, properties, callback]).Ok? ==>
      BodyFields(Create([kind, query, properties, callback]).value) - {"type"}
      == BodyFields(Update([id, query, properties, callback]).value)
  {
    assert Optional([kind, query, properties, callback], 2, EmptyObject).value == properties;
    assert Optional([id, query, properties, callback], 2, EmptyObject).value == properties;
    var f := PropertyFields(properties);
    if f.Ok? {
      WithoutType(kind, query, f.value);
    }
  }

  /** Removing `type` from create's fields leaves update's, since the properties never hold a `type`. */
  lemma WithoutType(kind: Value, query: Value, fields: map<string, Value>)
    requires fields.Keys <= OptionalKeys
    ensures (map["type" := kind, "query" := query] + fields) - {"type"} == map["query" := query] + fields
  {
    assert "type" !in fields;
  }

  /** `get(monitorId, [groupStates], callback)`: GET /monitor/{id}, with `group_states` joined when given. */
  function Get(args: seq<Value>): (r: Result<Call, Error>)
    ensures var gs := Optional(args, 1, Undefined).value;
      r.Err? <==> Truthy(gs) && !gs.Arr?
    ensures r.Ok? ==> (r.value.verb == "GET" && r.value.path == Format("/monitor/", Arg(args, 0), "")
      && Arg(r.value.rest, 1) == Optional(args, 1, Undefined).callback)
    ensures var gs := Optional(args, 1, Undefined).value;
      r.Ok? ==> HasWhen(ParamsFields(r.value), "query", Truthy(gs), Obj(map["group_states" := Joined(gs)]))
    ensures r.Ok? ==> ParamsFields(r.value).Keys <= {"query"}
  {
    var sh := Optional(args, 1, Undefined);
    var params: map<string, Value> :-
      if Truthy(sh.value) then
        (match ArrayJoin(sh.value)
         case Ok(joined) => Ok(map["query" := Obj(map["group_states" := joined])])
         case Err(e) => Err(e))
      else Ok(map[]);
    Ok(WithParams("GET", Format("/monitor/", Arg(args, 0), ""), params, sh.callback))
  }

  /** One of `getAll`'s list filters: joined with commas when truthy. */
  function JoinedIf(q: map<string, Value>, key: string, v: Value): (r: Result<map<string, Value>, Error>)
    ensures r.Err? <==> Truthy(v) && !v.Arr?
    ensures r.Ok? && Truthy(v) ==> r.value == q[key := Joined(v)]
    ensures r.Ok? && !Truthy(v) ==> r.value == q
  {
    if Truthy(v) then
      var joined :- ArrayJoin(v);
      Ok(q[key := joined])
    else Ok(q)
  }

  /** A filter list that can be joined: absent or falsy, or an array. */
  predicate Joinable(v: Value) {
    !Truthy(v) || v.Arr?
  }

  /**
   * `getAll([options], callback)`: GET /monitor; object-typed options give a
   * query holding the group_states, tags and monitor_tags lists that are set.
   */
  function GetAll(args: seq<Value>): (r: Result<Call, Error>)
    ensures var o := Optional(args, 0, EmptyObject).value;
      r.Err? <==> (o.Null? || (IsObjectType(o) &&
        !(Joinable(Prop(o, "group_states")) && Joinable(Prop(o, "tags")) && Joinable(Prop(o, "monitor_tags")))))
    ensures r.Ok? ==> r.value.verb == "GET" && r.value.path == "/monitor"
    ensures var o := Optional(args, 0, EmptyObject).value;
      r.Ok? ==> ("query" in ParamsFields(r.value) <==> IsObjectType(o)) && ParamsFields(r.value).Keys <= {"query"}
    ensures var o := Optional(args, 0, EmptyObject).value;
      r.Ok? && IsObjectType(o) ==> (ParamsFields(r.value)["query"].Obj? &&
        var q := ParamsFields(r.value)["query"].fields;
        q.Keys <= {"group_states", "tags", "monitor_tags"}
        && HasWhen(q, "group_states", Truthy(Prop(o, "group_states")), Joined(Prop(o, "group_states")))
        && HasWhen(q, "tags", Truthy(Prop(o, "tags")), Joined(Prop(o, "tags")))
        && HasWhen(q, "monitor_tags", Truthy(Prop(o, "monitor_tags")), Joined(Prop(o, "monitor_tags"))))
  {
    var sh := Optional(args, 0, EmptyObject);
    var o := sh.value;
    if IsObjectType(o) then
      var groupStates :- Read(o, "group_states");
      var q1 :- JoinedIf(map[], "group_states", groupStates);
      var q2 :- JoinedIf(q1, "tags", Prop(o, "tags"));
      var q3 :- JoinedIf(q2, "monitor_tags", Prop(o, "monitor_tags"));
      Ok(WithParams("GET", "/monitor", map["query" := Obj(q3)], sh.callback))
    else
      Ok(WithParams("GET", "/monitor", map[], sh.callback))
  }

  /** The fields of an object-typed `mute` options: scope and `parseInt(end)` when truthy. */
  function MuteFields(scope: Value, end: Value): (m: map<string, Value>)
    ensures m.Keys <= {"scope", "end"}
    ensures HasWhen(m, "scope", Truthy(scope), scope)
    ensures HasWhen(m, "end", Truthy(end), ParseInt(end))
  {
    var b1: map<string, Value> := if Truthy(scope) then map["scope" := scope] else map[];
    if Truthy(end) then b1["end" := ParseInt(end)] else b1
  }

  /** The body `mute` sends: the fields for object-typed options, else the empty string. */
  function MuteBody(o: Value): (r: Result<Value, Error>)
    ensures r.Err? <==> o.Null?
    ensures r.Ok? && !IsObjectType(o) ==> r.value == Str("")
    ensures r.Ok? && IsObjectType(o) ==> r.value == Obj(MuteFields(Prop(o, "scope"), Prop(o, "end")))
  {
    if IsObjectType(o) then
      var scope :- Read(o, "scope");
      Ok(Obj(MuteFields(scope, Prop(o, "end"))))
    else Ok(Str(""))
  }

  /** `mute(monitorId, [options], callback)`: POST /monitor/{id}/mute. */
  function Mute(args: seq<Value>): (r: Result<Call, Error>)
    ensures r.Err? <==> Optional(args, 1, EmptyObject).value.Null?
    ensures r.Ok? ==> r.value == WithBody("POST", Format("/monitor/", Arg(args, 0), "/mute"),
                                          MuteBody(Optional(args, 1, EmptyObject).value).value,
                                          Optional(args, 1, EmptyObject).callback)
  {
    var sh := Optional(args, 1, EmptyObject);
    var body :- MuteBody(sh.value);
    Ok(WithBody("POST", Format("/monitor/", Arg(args, 0), "/mute"), body, sh.callback))
  }

  /** A numeric end time is sent unchanged through `parseInt`. */
  lemma MuteKeepsNumericEnd(end: int)
    requires end != 0
    ensures MuteBody(Obj(map["end" := Num(end)])) == Ok(Obj(map["end" := Num(end)]))
  {
    var o := Obj(map["end" := Num(end)]);
    assert Prop(o, "end") == Num(end) && Prop(o, "scope") == Undefined;
    assert MuteBody(o) == Ok(Obj(MuteFields(Undefined, Num(end))));
    EndOnly(Num(end));
    assert ParseInt(Num(end)) == Num(end) by {
      ParseIntOfNum(end);
    }
  }

  /** Without a scope, the fields are only the end time through `parseInt`. */
  lemma EndOnly(end: Value)
    requires Truthy(end)
    ensures MuteFields(Undefined, end) == map["end" := ParseInt(end)]
  {
  }

  /** `unmute(monitorId, [scope], callback)`: POST /monitor/{id}/unmute with `{scope}` or the empty body. */
  function Unmute(args: seq<Value>): (c: Call)
    ensures c.verb == "POST" && c.path == Format("/monitor/", Arg(args, 0), "/unmute")
    ensures var scope := Optional(args, 1, Undefined).value;
      BodyOf(c) == if Truthy(scope) then Obj(map["scope" := scope]) else Str("")
    ensures Arg(c.rest, 1) == Optional(args, 1, Undefined).callback
  {
    var sh := Optional(args, 1, Undefined);
    var body := if Truthy(sh.value) then Obj(map["scope" := sh.value]) else Str("");
    WithBody("POST", Format("/monitor/", Arg(args, 0), "/unmute"), body, sh.callback)
  }

  /** Unmuting without a scope sends the same empty body as muting with non-object options. */
  lemma UnmuteWithoutScopeLikeBareMute(id: Value, callback: Value)
    requires IsFunction(callback)
    ensures BodyOf(Unmute([id, callback])) == Str("")
    ensures Mute([id, Str("x"), callback]).Ok? && BodyOf(Mute([id, Str("x"), callback]).value) == Str("")
  {
  }

  /** `remove(monitorId, callback)`: DELETE /monitor/{id}, three-argument form. */
  function Remove(id: Value, callback: Value): Call
  {
    Bare("DELETE", Format("/monitor/", id, ""), callback)
  }

  /**
   * With a function callback: DELETE /api/{version}/monitor/{id}, carrying only the
   * two keys and no body; with no callback, reading `params.body` throws.
   */
  lemma RemoveRequest(c: DatadogClient.Client, codec: Codec, id: Value, callback: Value)
    requires IsFunction(callback)
    ensures var r := c.Request(codec, Remove(id, callback));
      r.Ok? && r.value.pathname == "/api/" + ToString(c.apiVersion) + "/monitor/" + ToString(id)
      && Has(r.value.options, "method", Str("DELETE")) && r.value.payload == None
      && r.value.query == map["api_key" := c.apiKey, "application_key" := c.appKey]
    ensures c.Request(codec, Remove(id, Undefined)) == Err(TypeError("body"))
  {
    assert c.Request(codec, Remove(id, Undefined)) == Err(TypeError("body")) by {
      DatadogClient.BareCall(c, codec, "DELETE", Format("/monitor/", id, ""), Undefined);
    }
    var api := "/api/" + ToString(c.apiVersion);
    FormatUnder(api, "/monitor/", id);
    Text.UpperVerbs();
    DatadogClient.BareCall(c, codec, "DELETE", Format("/monitor/", id, ""), callback);
  }


  /** `muteAll(callback)`: POST /monitor/mute_all, three-argument form. */
  function MuteAll(callback: Value): Call
  {
    Bare("POST", "/monitor/mute_all", callback)
  }

  /**
   * With a function callback: POST /api/{version}/monitor/mute_all, carrying only the
   * two keys and the empty body; with no callback, reading `params.body` throws.
   */
  lemma MuteAllRequest(c: DatadogClient.Client, codec: Codec, callback: Value)
    requires IsFunction(callback)
    ensures var r := c.Request(codec, MuteAll(callback));
      r.Ok? && r.value.pathname == "/api/" + ToString(c.apiVersion) + "/monitor/mute_all"
      && Has(r.value.options, "method", Str("POST")) && r.value.payload == Some("")
      && r.value.query == map["api_key" := c.apiKey, "application_key" := c.appKey]
    ensures c.Request(codec, MuteAll(Undefined)) == Err(TypeError("body"))
  {
    assert c.Request(codec, MuteAll(Undefined)) == Err(TypeError("body")) by {
      DatadogClient.BareCall(c, codec, "POST", "/monitor/mute_all", Undefined);
    }
    Text.UpperVerbs();
    DatadogClient.BareCall(c, codec, "POST", "/monitor/mute_all", callback);
  }


  /** `unmuteAll(callback)`: POST /monitor/unmute_all, three-argument form. */
  function UnmuteAll(callback: Value): Call
  {
    Bare("POST", "/monitor/unmute_all", callback)
  }

  /**
   * With a function callback: POST /api/{version}/monitor/unmute_all, carrying only the
   * two keys and the empty body; with no callback, reading `params.body` throws.
   */
  lemma UnmuteAllRequest(c: DatadogClient.Client, codec: Codec, callback: Value)
    requires IsFunction(callback)
    ensures var r := c.Request(codec, UnmuteAll(callback));
      r.Ok? && r.value.pathname == "/api/" + ToString(c.apiVersion) + "/monitor/unmute_all"
      && Has(r.value.options, "method", Str("POST")) && r.value.payload == Some("")
      && r.value.query == map["api_key" := c.apiKey, "application_key" := c.appKey]
    ensures c.Request(codec, UnmuteAll(Undefined)) == Err(TypeError("body"))
  {
    assert c.Request(codec, UnmuteAll(Undefined)) == Err(TypeError("body")) by {
      DatadogClient.BareCall(c, codec, "POST", "/monitor/unmute_all", Undefined);
    }
    Text.UpperVerbs();
    DatadogClient.BareCall(c, codec, "POST", "/monitor/unmute_all", callback);
  }


  // ---------------------------------------------------------------------------
  // command line

  /** A comma-separated flag as an array; an absent flag is `[]`. */
  function ListFlag(v: Value): (r: Result<Value, Error>)
    ensures r.Err? <==> Truthy(v) && !v.Str?
    ensures r.Ok? ==> r.value.Arr?
    ensures r.Ok? && !Truthy(v) ==> r.value == Arr([])
    ensures r.Ok? && Truthy(v) ==> r.value == SplitComma(v.s)
  {
    if Truthy(v) then StringSplit(v) else Ok(Arr([]))
  }

  /** The properties `create` and `update` get from `--name` and `--message`. */
  function CliProperties(args: CliArgs): (m: map<string, Value>)
    ensures m.Keys <= {"name", "message"}
    ensures HasWhen(m, "name", Truthy(args.Flag("name")), args.Flag("name"))
    ensures HasWhen(m, "message", Truthy(args.Flag("message")), args.Flag("message"))
  {
    var p1: map<string, Value> := if Truthy(args.Flag("name")) then map["name" := args.Flag("name")] else map[];
    if Truthy(args.Flag("message")) then p1["message" := args.Flag("message")] else p1
  }

  /**
   * `handleCli(subcommand, args, callback)`: `--states` and `--tags` are split
   * first, for every subcommand; then each subcommand calls its operation.
   */
  function HandleCli(subcommand: string, args: CliArgs, callback: Value): (r: Result<Cli, Error>)
    ensures r.Err? <==> ((Truthy(args.Flag("states")) && !args.Flag("states").Str?)
                     || (Truthy(args.Flag("tags")) && !args.Flag("tags").Str?))
    ensures r.Ok? && subcommand !in {"get", "getall", "mute", "unmute", "unmuteall", "muteall", "remove", "create", "update"}
      ==> r.value == Refuse(Unknown("monitor"))
    ensures r.Ok? && subcommand in {"create", "update"} && args.Count() <= 5 ==> r.value == Refuse(Unknown("monitor"))
    ensures r.Ok? && subcommand == "create" && args.Count() > 5 ==>
      r.value == Dispatch(Create([args.Pos(4), args.Pos(5), Obj(CliProperties(args)), callback]).value)
    ensures r.Ok? && subcommand == "remove" ==> r.value == Dispatch(Remove(args.Pos(4), callback))
    ensures r.Ok? ==> r.value == CliCommand(subcommand, args, ListFlag(args.Flag("states")).value,
                                            ListFlag(args.Flag("tags")).value, callback)
  {
    var states :- ListFlag(args.Flag("states"));
    var tags :- ListFlag(args.Flag("tags"));
    Ok(CliCommand(subcommand, args, states, tags, callback))
  }

  /** What each subcommand does once `--states` and `--tags` are split into arrays. */
  function CliCommand(subcommand: string, args: CliArgs, states: Value, tags: Value, callback: Value): (c: Cli)
    requires states.Arr? && tags.Arr?
    ensures subcommand !in {"get", "getall", "mute", "unmute", "unmuteall", "muteall", "remove", "create", "update"}
      ==> c == Refuse(Unknown("monitor"))
    ensures subcommand in {"create", "update"} && args.Count() <= 5 ==> c == Refuse(Unknown("monitor"))
    ensures subcommand == "create" && args.Count() > 5 ==>
      c.Dispatch? && Create([args.Pos(4), args.Pos(5), Obj(CliProperties(args)), callback]) == Ok(c.call)
    ensures subcommand == "remove" ==> c == Dispatch(Remove(args.Pos(4), callback))
    ensures subcommand == "get" ==> c.Dispatch? && Get([args.Pos(4), states, callback]) == Ok(c.call)
    ensures subcommand == "getall" ==> c.Dispatch? && GetAll([Obj(CliGetAllOptions(states, tags)), callback]) == Ok(c.call)
    ensures subcommand == "mute" ==> c.Dispatch? && Mute([args.Pos(4), Obj(CliMuteOptions(args)), callback]) == Ok(c.call)
    ensures subcommand == "unmute" ==> c == Dispatch(Unmute([args.Pos(4), args.Flag("scope"), callback]))
    ensures subcommand == "unmuteall" ==> c == Dispatch(UnmuteAll(callback))
    ensures subcommand == "muteall" ==> c == Dispatch(MuteAll(callback))
    ensures subcommand == "update" && args.Count() > 5 ==>
      c.Dispatch? && Update([args.Pos(4), args.Pos(5), Obj(CliProperties(args)), callback]) == Ok(c.call)
  {
    if subcommand == "get" then
      Dispatch(CliGet(args.Pos(4), states, callback))
    else if subcommand == "getall" then
      Dispatch(CliGetAll(states, tags, callback))
    else if subcommand == "mute" then
      Dispatch(CliMute(args, callback))
    else if subcommand == "unmute" then
      Dispatch(Unmute([args.Pos(4), args.Flag("scope"), callback]))
    else if subcommand == "unmuteall" then
      Dispatch(UnmuteAll(callback))
    else if subcommand == "muteall" then
      Dispatch(MuteAll(callback))
    else if subcommand == "remove" then
      Dispatch(Remove(args.Pos(4), callback))
    else if subcommand == "create" && args.Count() > 5 then
      Dispatch(CliCreate(args, callback))
    else if subcommand == "update" && args.Count() > 5 then
      Dispatch(CliUpdate(args, callback))
    else
      Refuse(Unknown("monitor"))
  }

  /** `monitor get`: `get` with the split states, which as an array never throws. */
  function CliGet(id: Value, states: Value, callback: Value): (c: Call)
    requires states.Arr?
    ensures Get([id, states, callback]) == Ok(c)
  {
    Get([id, states, callback]).value
  }

  /** `monitor getall`: `getAll` with the non-empty split lists, which never throws. */
  function CliGetAll(states: Value, tags: Value, callback: Value): (c: Call)
    requires states.Arr? && tags.Arr?
    ensures GetAll([Obj(CliGetAllOptions(states, tags)), callback]) == Ok(c)
  {
    GetAll([Obj(CliGetAllOptions(states, tags)), callback]).value
  }

  /** `monitor mute`: `mute` with object options, which never throws. */
  function CliMute(args: CliArgs, callback: Value): (c: Call)
    ensures Mute([args.Pos(4), Obj(CliMuteOptions(args)), callback]) == Ok(c)
  {
    Mute([args.Pos(4), Obj(CliMuteOptions(args)), callback]).value
  }

  /** `monitor create`: `create` with object properties, which never throws. */
  function CliCreate(args: CliArgs, callback: Value): (c: Call)
    ensures Create([args.Pos(4), args.Pos(5), Obj(CliProperties(args)), callback]) == Ok(c)
  {
    Create([args.Pos(4), args.Pos(5), Obj(CliProperties(args)), callback]).value
  }

  /** `monitor update`: `update` with object properties, which never throws. */
  function CliUpdate(args: CliArgs, callback: Value): (c: Call)
    ensures Update([args.Pos(4), args.Pos(5), Obj(CliProperties(args)), callback]) == Ok(c)
  {
    Update([args.Pos(4), args.Pos(5), Obj(CliProperties(args)), callback]).value
  }

  /** The options of `monitor getall`: the split states and tags, each only when non-empty. */
  function CliGetAllOptions(states: Value, tags: Value): (m: map<string, Value>)
    requires states.Arr? && tags.Arr?
    ensures m.Keys <= {"group_states", "tags"}
    ensures HasWhen(m, "group_states", |states.items| > 0, states)
    ensures HasWhen(m, "tags", |tags.items| > 0, tags)
  {
    var o1: map<string, Value> := if |states.items| > 0 then map["group_states" := states] else map[];
    if |tags.items| > 0 then o1["tags" := tags] else o1
  }

  /** The options of `monitor mute`: the truthy `--scope` and `--end` flags. */
  function CliMuteOptions(args: CliArgs): (m: map<string, Value>)
    ensures m.Keys <= {"scope", "end"}
    ensures HasWhen(m, "scope", Truthy(args.Flag("scope")), args.Flag("scope"))
    ensures HasWhen(m, "end", Truthy(args.Flag("end")), args.Flag("end"))
  {
    var o1: map<string, Value> := if Truthy(args.Flag("scope")) then map["scope" := args.Flag("scope")] else map[];
    if Truthy(args.Flag("end")) then o1["end" := args.Flag("end")] else o1
  }

  /**
   * `monitor get` always sends a `group_states` query, the empty string when
   * no `--states` flag is given, where a direct `get` without states sends none.
   */
  lemma CliGetAlwaysSendsGroupStates(args: CliArgs, callback: Value)
    requires !Truthy(args.Flag("states")) && !Truthy(args.Flag("tags"))
    ensures var r := HandleCli("get", args, callback);
      r.Ok? && r.value.Dispatch?
      && ParamsFields(r.value.call) == map["query" := Obj(map["group_states" := Str("")])]
    ensures IsFunction(callback) ==> ParamsFields(Get([args.Pos(4), callback]).value) == map[]
  {
    assert ListFlag(args.Flag("states")) == Ok(Arr([])) && ListFlag(args.Flag("tags")) == Ok(Arr([]));
    assert HandleCli("get", args, callback) == Ok(CliCommand("get", args, Arr([]), Arr([]), callback));
    GetEmptyStates(args.Pos(4), callback);
    if IsFunction(callback) {
      GetWithoutStates(args.Pos(4), callback);
    }
  }

  /**
   * `monitor get --states s` sends `s` itself as the group states: the
   * command line splits it on commas and `get` joins it back.
   */
  lemma CliGetSendsStates(args: CliArgs, callback: Value)
    requires args.Flag("states").Str? && Truthy(args.Flag("states"))
    requires !Truthy(args.Flag("tags")) || args.Flag("tags").Str?
    ensures var r := HandleCli("get", args, callback);
      r.Ok? && r.value.Dispatch?
      && ParamsFields(r.value.call) == map["query" := Obj(map["group_states" := args.Flag("states")])]
  {
    var states := ListFlag(args.Flag("states")).value;
    assert states == SplitComma(args.Flag("states").s);
    SplitStatesJoined(args.Pos(4), args.Flag("states").s, callback);
  }

  /** `get` with the comma-split parts of `s` sends `s` as the group states. */
  lemma SplitStatesJoined(id: Value, s: string, callback: Value)
    ensures var r := Get([id, SplitComma(s), callback]);
      r.Ok? && ParamsFields(r.value) == map["query" := Obj(map["group_states" := Str(s)])]
  {
    var states := SplitComma(s);
    assert Optional([id, states, callback], 1, Undefined) == Shifted(states, callback);
    assert Joined(states) == Str(s) by {
      assert StringSplit(Str(s)) == Ok(states);
    }
  }

  /** An empty states array is truthy, and joins to the empty string. */
  lemma GetEmptyStates(id: Value, callback: Value)
    ensures var r := Get([id, Arr([]), callback]);
      r.Ok? && ParamsFields(r.value) == map["query" := Obj(map["group_states" := Str("")])]
  {
    assert Optional([id, Arr([]), callback], 1, Undefined) == Shifted(Arr([]), callback);
    assert Joined(Arr([])) == Str("") by {
      assert JoinValues([]) == "";
    }
  }

  /** Without states, `get` sends no parameters. */
  lemma GetWithoutStates(id: Value, callback: Value)
    requires IsFunction(callback)
    ensures var r := Get([id, callback]);
      r.Ok? && ParamsFields(r.value) == map[]
  {
    assert Optional([id, callback], 1, Undefined) == Shifted(Undefined, callback);
  }
}
