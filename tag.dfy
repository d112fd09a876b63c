/**
 * lib/api/tag.js: the tags of a host (the /tags/hosts endpoints), and the
 * `tag` command line.
 */
module Tag {
  import opened Wrappers
  import opened Js
  import opened Calls

  /** `/tags/hosts/${hostname}`. */
  function HostPath(hostname: Value): string {
    "/tags/hosts/" + ToString(hostname)
  }

  /** `getAll([source], callback)`: GET /tags/hosts with query `{source}`, present even when undefined. */
  function GetAll(args: seq<Value>): (c: Call)
    ensures var sh := Optional(args, 0, Undefined);
      c == WithQuery("GET", "/tags/hosts", Obj(map["source" := sh.value]), sh.callback)
    ensures "source" in QueryFields(c)
  {
    var sh := Optional(args, 0, Undefined);
    WithQuery("GET", "/tags/hosts", Obj(map["source" := sh.value]), sh.callback)
  }

  /** `params.query[key] = options[key]` when that option is truthy. */
  function CopyTruthy(m: map<string, Value>, o: Value, key: string): (r: map<string, Value>)
    ensures Truthy(Prop(o, key)) ==> r == m[key := Prop(o, key)]
    ensures !Truthy(Prop(o, key)) ==> r == m
  {
    if Truthy(Prop(o, key)) then m[key := Prop(o, key)] else m
  }

  /**
   * `get(hostname, [options], callback)`: GET /tags/hosts/{hostname}, the
   * query holding source and by_source only when those options are truthy.
   */
  function Get(args: seq<Value>): (c: Call)
    ensures c.verb == "GET" && c.path == HostPath(Arg(args, 0))
    ensures var sh := Optional(args, 1, EmptyObject);
      |c.rest| == 2 && c.rest[1] == sh.callback
    ensures var o := Or(Optional(args, 1, EmptyObject).value, EmptyObject);
      QueryOf(c).Obj? && QueryFields(c).Keys <= {"source", "by_source"}
      && HasWhen(QueryFields(c), "source", Truthy(Prop(o, "source")), Prop(o, "source"))
      && HasWhen(QueryFields(c), "by_source", Truthy(Prop(o, "by_source")), Prop(o, "by_source"))
  {
    var sh := Optional(args, 1, EmptyObject);
    var o := Or(sh.value, EmptyObject);
    var q := CopyTruthy(CopyTruthy(map[], o, "source"), o, "by_source");
    WithQuery("GET", HostPath(Arg(args, 0)), Obj(q), sh.callback)
  }

  /** Omitting the options, passing `{}`, or passing any falsy value asks for the same thing. */
  lemma GetOmittedOptions(hostname: Value, options: Value, callback: Value)
    requires IsFunction(callback) && !Truthy(options)
    ensures Get([hostname, callback]) == Get([hostname, options, callback])
    ensures QueryFields(Get([hostname, callback])) == map[]
  {
    assert Optional([hostname, callback], 1, EmptyObject) == Shifted(EmptyObject, callback);
    assert Optional([hostname, options, callback], 1, EmptyObject) == Shifted(options, callback);
  }

  /** `create(hostname, tags, [source], callback)`: POST /tags/hosts/{hostname} with body `{tags, source}`. */
  function Create(args: seq<Value>): (c: Call)
    ensures var sh := Optional(args, 2, Undefined);
      c == WithBody("POST", HostPath(Arg(args, 0)), Obj(map["tags" := Arg(args, 1), "source" := sh.value]), sh.callback)
  {
    var sh := Optional(args, 2, Undefined);
    WithBody("POST", HostPath(Arg(args, 0)), Obj(map["tags" := Arg(args, 1), "source" := sh.value]), sh.callback)
  }

  /** `update(hostname, tags, [source], callback)`: PUT /tags/hosts/{hostname} with body `{tags, source}`. */
  function Update(args: seq<Value>): (c: Call)
    ensures var sh := Optional(args, 2, Undefined);
      c == WithBody("PUT", HostPath(Arg(args, 0)), Obj(map["tags" := Arg(args, 1), "source" := sh.value]), sh.callback)
  {
    var sh := Optional(args, 2, Undefined);
    WithBody("PUT", HostPath(Arg(args, 0)), Obj(map["tags" := Arg(args, 1), "source" := sh.value]), sh.callback)
  }

  /** `create` and `update` differ only in the verb: the same host, body and callback. */
  lemma CreateUpdateDifferInVerb(args: seq<Value>)
    ensures Create(args).verb == "POST" && Update(args).verb == "PUT"
    ensures Create(args).path == Update(args).path && Create(args).rest == Update(args).rest
  {
  }

  /** `remove(hostname, [source], callback)`: DELETE /tags/hosts/{hostname} with query `{source}`. */
  function Remove(args: seq<Value>): (c: Call)
    ensures var sh := Optional(args, 1, Undefined);
      c == WithQuery("DELETE", HostPath(Arg(args, 0)), Obj(map["source" := sh.value]), sh.callback)
  {
    var sh := Optional(args, 1, Undefined);
    WithQuery("DELETE", HostPath(Arg(args, 0)), Obj(map["source" := sh.value]), sh.callback)
  }

  /** A source given explicitly or left out reaches the same query key, undefined in the second case. */
  lemma RemoveOmittedSource(hostname: Value, callback: Value)
    requires IsFunction(callback)
    ensures Remove([hostname, callback]) == Remove([hostname, Undefined, callback])
  {
    OmittedIsFallback([hostname], Undefined, callback);
  }

  /**
   * The options object the command line passes to `get`: source when
   * `--source` is truthy, `by_source: true` when `--by-source` is given.
   */
  function CliGetOptions(args: CliArgs): (o: map<string, Value>)
    ensures o.Keys <= {"source", "by_source"}
    ensures HasWhen(o, "source", Truthy(args.Flag("source")), args.Flag("source"))
    ensures HasWhen(o, "by_source", Truthy(args.Flag("by-source")), Bool(true))
  {
    var o := if Truthy(args.Flag("source")) then map["source" := args.Flag("source")] else map[];
    if Truthy(args.Flag("by-source")) then o["by_source" := Bool(true)] else o
  }

  /**
   * `handleCli(subcommand, args, callback)`: getall, get, create, update and
   * delete (which calls `remove`); the tags argument of create and update is
   * split on commas, which throws unless it is a string.
   */
  function HandleCli(subcommand: string, args: CliArgs, callback: Value): (r: Result<Cli, Error>)
    ensures subcommand !in {"getall", "get", "create", "update", "delete"} ==> r == Ok(Refuse(Unknown("tag")))
    ensures subcommand == "getall" ==> r == Ok(Dispatch(GetAll([args.Flag("source"), callback])))
    ensures subcommand == "get" ==> r == Ok(Dispatch(Get([args.Pos(4), Obj(CliGetOptions(args)), callback])))
    ensures subcommand == "delete" ==> r == Ok(Dispatch(Remove([args.Pos(4), args.Flag("source"), callback])))
    ensures subcommand in {"create", "update"} ==> (r.Err? <==> !args.Pos(5).Str?)
    ensures subcommand in {"create", "update"} && r.Err? ==> r.error == TypeError("split")
    ensures subcommand == "create" && r.Ok? ==>
      r.value == Dispatch(Create([args.Pos(4), SplitComma(args.Pos(5).s), args.Flag("source"), callback]))
    ensures subcommand == "update" && r.Ok? ==>
      r.value == Dispatch(Update([args.Pos(4), SplitComma(args.Pos(5).s), args.Flag("source"), callback]))
  {
    var source := args.Flag("source");
    var host := args.Pos(4);
    if subcommand == "getall" then Ok(Dispatch(GetAll([source, callback])))
    else if subcommand == "get" then Ok(Dispatch(Get([host, Obj(CliGetOptions(args)), callback])))
    else if subcommand == "create" then
      var tags :- StringSplit(args.Pos(5));
      Ok(Dispatch(Create([host, tags, source, callback])))
    else if subcommand == "update" then
      var tags :- StringSplit(args.Pos(5));
      Ok(Dispatch(Update([host, tags, source, callback])))
    else if subcommand == "delete" then Ok(Dispatch(Remove([host, source, callback])))
    else Ok(Refuse(Unknown("tag")))
  }

  /**
   * The command line's `tag remove`, which its usage text advertises, is
   * refused: the handler only knows `delete`.
   */
  lemma CliRemoveRefused(args: CliArgs, callback: Value)
    ensures HandleCli("remove", args, callback) == Ok(Refuse(Unknown("tag")))
    ensures HandleCli("delete", args, callback).Ok? && HandleCli("delete", args, callback).value.Dispatch?
  {
  }

  /** The tags the command line sends join back to the argument it was given. */
  lemma CliTagsRoundTrip(args: CliArgs, callback: Value)
    requires args.Pos(5).Str?
    ensures var r := HandleCli("create", args, callback);
      r.Ok? && Prop(BodyOf(r.value.call), "tags").Arr?
      && JoinValues(Prop(BodyOf(r.value.call), "tags").items) == args.Pos(5).s
  {
    JoinOfSplit(args.Pos(5).s);
  }
}
