/**
 * lib/api/comment.js: comments on the event stream (the /comments
 * endpoints), and the `comment` command line.
 */
module Comment {
  import opened Wrappers
  import opened Js
  import opened Calls
  import opened Http
  import DatadogClient
  import Text

  /**
   * The body of `create`: the message, plus handle and related_event_id for
   * the truthy ones among those properties of an object-typed `properties`.
   */
  function CommentBody(message: Value, properties: Value): (r: Result<map<string, Value>, Error>)
    ensures r.Err? <==> properties.Null?
    ensures r.Err? ==> r.error == TypeError("handle")
    ensures r.Ok? ==> Has(r.value, "message", message) && r.value.Keys <= {"message", "handle", "related_event_id"}
    ensures r.Ok? ==> HasWhen(r.value, "handle",
      IsObjectType(properties) && Truthy(Prop(properties, "handle")), Prop(properties, "handle"))
    ensures r.Ok? ==> HasWhen(r.value, "related_event_id",
      IsObjectType(properties) && Truthy(Prop(properties, "related_event_id")), Prop(properties, "related_event_id"))
  {
    var m := map["message" := message];
    if !IsObjectType(properties) then Ok(m)
    else if properties.Null? then Err(TypeError("handle"))
    else
      var m := if Truthy(Prop(properties, "handle")) then m["handle" := Prop(properties, "handle")] else m;
      var m := if Truthy(Prop(properties, "related_event_id")) then m["related_event_id" := Prop(properties, "related_event_id")] else m;
      Ok(m)
  }

  /** `create(message, [properties], callback)`: POST /comments. */
  function Create(args: seq<Value>): (r: Result<Call, Error>)
    ensures var sh := Optional(args, 1, EmptyObject);
      r.Err? <==> sh.value.Null?
    ensures var sh := Optional(args, 1, EmptyObject);
      r.Ok? ==> r.value == WithBody("POST", "/comments", Obj(CommentBody(Arg(args, 0), sh.value).value), sh.callback)
  {
    var sh := Optional(args, 1, EmptyObject);
    var body :- CommentBody(Arg(args, 0), sh.value);
    Ok(WithBody("POST", "/comments", Obj(body), sh.callback))
  }

  /** Without properties, or with properties that are not objects, only the message is sent. */
  lemma CreateMessageOnly(message: Value, properties: Value, callback: Value)
    requires IsFunction(callback) && !IsObjectType(properties) && !IsFunction(properties)
    ensures Create([message, callback]) == Create([message, properties, callback])
    ensures Create([message, callback]) == Ok(WithBody("POST", "/comments", Obj(map["message" := message]), callback))
  {
    assert Optional([message, callback], 1, EmptyObject) == Shifted(EmptyObject, callback);
    assert Optional([message, properties, callback], 1, EmptyObject) == Shifted(properties, callback);
  }

  /**
   * `update(commentId, message, [handle], callback)`: PUT /comments/{id};
   * the body always has a handle key, undefined when the handle is falsy.
   */
  function Update(args: seq<Value>): (c: Call)
    ensures var sh := Optional(args, 2, Undefined);
      c == WithBody("PUT", Format("/comments/", Arg(args, 0), ""),
        Obj(map["message" := Arg(args, 1), "handle" := Or(sh.value, Undefined)]), sh.callback)
    ensures "handle" in BodyFields(c)
    ensures Truthy(BodyFields(c)["handle"]) || BodyFields(c)["handle"] == Undefined
  {
    var sh := Optional(args, 2, Undefined);
    WithBody("PUT", Format("/comments/", Arg(args, 0), ""),
      Obj(map["message" := Arg(args, 1), "handle" := Or(sh.value, Undefined)]), sh.callback)
  }

  /** Every falsy handle, and a left-out one, updates the same way. */
  lemma UpdateFalsyHandle(id: Value, message: Value, handle: Value, callback: Value)
    requires IsFunction(callback) && !Truthy(handle)
    ensures Update([id, message, callback]) == Update([id, message, handle, callback])
  {
    assert Optional([id, message, callback], 2, Undefined) == Shifted(Undefined, callback);
    assert Optional([id, message, handle, callback], 2, Undefined) == Shifted(handle, callback);
  }

  /** `remove(commentId, callback)`: DELETE /comments/{id}, in the three-argument form. */
  function Remove(id: Value, callback: Value): Call
  {
    Bare("DELETE", Format("/comments/", id, ""), callback)
  }

  /**
   * With a function callback: DELETE /api/{version}/comments/{id}, carrying only the
   * two keys and no body; with no callback, reading `params.body` throws.
   */
  lemma RemoveRequest(c: DatadogClient.Client, codec: Codec, id: Value, callback: Value)
    requires IsFunction(callback)
    ensures var r := c.Request(codec, Remove(id, callback));
      r.Ok? && r.value.pathname == "/api/" + ToString(c.apiVersion) + "/comments/" + ToString(id)
      && Has(r.value.options, "method", Str("DELETE")) && r.value.payload == None
      && r.value.query == map["api_key" := c.apiKey, "application_key" := c.appKey]
    ensures c.Request(codec, Remove(id, Undefined)) == Err(TypeError("body"))
  {
    assert c.Request(codec, Remove(id, Undefined)) == Err(TypeError("body")) by {
      DatadogClient.BareCall(c, codec, "DELETE", Format("/comments/", id, ""), Undefined);
    }
    var api := "/api/" + ToString(c.apiVersion);
    FormatUnder(api, "/comments/", id);
    Text.UpperVerbs();
    DatadogClient.BareCall(c, codec, "DELETE", Format("/comments/", id, ""), callback);
  }

  /** `properties.related_event_id = parseInt(event)` when the flag is given. */
  function EventOption(m: map<string, Value>, event: Value): (r: map<string, Value>)
    ensures Truthy(event) ==> r == m["related_event_id" := ParseInt(event)]
    ensures !Truthy(event) ==> r == m
  {
    if Truthy(event) then m["related_event_id" := ParseInt(event)] else m
  }

  /** The properties the command line builds: `--handle` as is, `--event` through `parseInt`. */
  function CliProperties(args: CliArgs): (m: map<string, Value>)
    ensures m.Keys <= {"handle", "related_event_id"}
    ensures HasWhen(m, "handle", Truthy(args.Flag("handle")), args.Flag("handle"))
    ensures HasWhen(m, "related_event_id", Truthy(args.Flag("event")), ParseInt(args.Flag("event")))
  {
    var handle := args.Flag("handle");
    var m: map<string, Value> := if Truthy(handle) then map["handle" := handle] else map[];
    EventOption(m, args.Flag("event"))
  }

  /** `handleCli(subcommand, args, callback)`: create, update and remove. */
  function HandleCli(subcommand: string, args: CliArgs, callback: Value): (r: Result<Cli, Error>)
    ensures subcommand !in {"create", "update", "remove"} ==> r == Ok(Refuse(Unknown("comment")))
    ensures subcommand == "create" ==> r == Lift(Create([args.Pos(4), Obj(CliProperties(args)), callback]))
    ensures subcommand == "create" ==> r.Ok?
    ensures subcommand == "update" ==> r == Ok(Dispatch(Update([args.Pos(4), args.Pos(5), args.Flag("handle"), callback])))
    ensures subcommand == "remove" ==> r == Ok(Dispatch(Remove(args.Pos(4), callback)))
  {
    if subcommand == "create" then Lift(Create([args.Pos(4), Obj(CliProperties(args)), callback]))
    else if subcommand == "update" then Ok(Dispatch(Update([args.Pos(4), args.Pos(5), args.Flag("handle"), callback])))
    else if subcommand == "remove" then Ok(Dispatch(Remove(args.Pos(4), callback)))
    else Ok(Refuse(Unknown("comment")))
  }

  /** Properties whose related_event_id is falsy create a comment without one. */
  lemma CreateWithoutEvent(message: Value, m: map<string, Value>, callback: Value)
    requires !Truthy(Prop(Obj(m), "related_event_id"))
    ensures var r := Create([message, Obj(m), callback]);
      r.Ok? && "related_event_id" !in BodyFields(r.value)
  {
    assert Optional([message, Obj(m), callback], 1, EmptyObject) == Shifted(Obj(m), callback);
  }

  /**
   * An `--event` that `parseInt` reads as 0, or cannot read, is dropped:
   * the comment is created without a related event.
   */
  lemma CliDropsZeroEvent(args: CliArgs, callback: Value)
    requires !Truthy(ParseInt(args.Flag("event")))
    ensures var r := HandleCli("create", args, callback);
      r.Ok? && "related_event_id" !in BodyFields(r.value.call)
  {
    FalsyEventProperty(args);
    CliCreateWithoutEvent(args, callback);
  }

  /** A falsy reading of `--event` leaves the related event falsy in the properties. */
  lemma FalsyEventProperty(args: CliArgs)
    requires !Truthy(ParseInt(args.Flag("event")))
    ensures !Truthy(Prop(Obj(CliProperties(args)), "related_event_id"))
  {
    FalsyWhen(CliProperties(args), "related_event_id", Truthy(args.Flag("event")), ParseInt(args.Flag("event")));
  }

  /** `create` on the command line, with properties whose related event is falsy, sends none. */
  lemma CliCreateWithoutEvent(args: CliArgs, callback: Value)
    requires !Truthy(Prop(Obj(CliProperties(args)), "related_event_id"))
    ensures var r := HandleCli("create", args, callback);
      r.Ok? && "related_event_id" !in BodyFields(r.value.call)
  {
    var c := Create([args.Pos(4), Obj(CliProperties(args)), callback]);
    CreateWithoutEvent(args.Pos(4), CliProperties(args), callback);
    var r := HandleCli("create", args, callback);
    assert r == Lift(c);
    assert r.Ok? && r.value.call == c.value;
  }
}
