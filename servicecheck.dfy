/**
 * lib/api/service-check.js: posting a service check run (POST /check_run),
 * which writes the check, host and status into the caller's parameters
 * object, and the `servicecheck` command line.
 */
module ServiceCheck {
  import opened Wrappers
  import opened Js
  import opened Calls

  const NotEnough: string := "not enough arguments try `dogapi servicecheck --help` for help"

  /**
   * `if (typeof parameters !== 'object') parameters = {};` followed by the
   * writes of check, host_name and status: null makes the first write
   * throw; an array keeps its elements (named properties on arrays are not
   * represented).
   */
  function Checked(parameters: Value, check: Value, host: Value, status: Value): (r: Result<Value, Error>)
    ensures r.Err? <==> parameters.Null?
    ensures r.Err? ==> r.error == TypeError("check")
    ensures !IsObjectType(parameters) ==> r == Ok(Obj(map["check" := check, "host_name" := host, "status" := status]))
    ensures parameters.Obj? ==> (r.Ok? && r.value.Obj?
      && r.value.fields.Keys == parameters.fields.Keys + {"check", "host_name", "status"}
      && Has(r.value.fields, "check", check) && Has(r.value.fields, "host_name", host)
      && Has(r.value.fields, "status", status))
    ensures parameters.Obj? ==> forall k :: k in parameters.fields && k !in {"check", "host_name", "status"} ==>
      Has(r.value.fields, k, parameters.fields[k])
    ensures parameters.Arr? ==> r == Ok(parameters)
  {
    if !IsObjectType(parameters) then Ok(Obj(map["check" := check, "host_name" := host, "status" := status]))
    else if parameters.Null? then Err(TypeError("check"))
    else if parameters.Obj? then Ok(Obj(parameters.fields["check" := check]["host_name" := host]["status" := status]))
    else Ok(parameters)
  }

  /** `check(checkName, hostName, status, [parameters], callback)` on plain values: POST /check_run. */
  function CheckCall(args: seq<Value>): (r: Result<Call, Error>)
    ensures var sh := Optional(args, 3, EmptyObject);
      r.Err? <==> sh.value.Null?
    ensures var sh := Optional(args, 3, EmptyObject);
      r.Ok? ==> r.value == WithBody("POST", "/check_run", Checked(sh.value, Arg(args, 0), Arg(args, 1), Arg(args, 2)).value, sh.callback)
  {
    var sh := Optional(args, 3, EmptyObject);
    var body :- Checked(sh.value, Arg(args, 0), Arg(args, 1), Arg(args, 2));
    Ok(WithBody("POST", "/check_run", body, sh.callback))
  }

  /** The three arguments win over same-named parameters; every other parameter is sent as given. */
  lemma CheckSendsParameters(check: Value, host: Value, status: Value, m: map<string, Value>, callback: Value)
    ensures var r := CheckCall([check, host, status, Obj(m), callback]);
      r.Ok? && r.value.path == "/check_run"
      && BodyFields(r.value) == m["check" := check]["host_name" := host]["status" := status]
  {
    assert Optional([check, host, status, Obj(m), callback], 3, EmptyObject) == Shifted(Obj(m), callback);
  }

  /** Leaving the parameters out is the same as passing `{}`: the body is `{check, host_name, status}`. */
  lemma CheckOmittedParameters(check: Value, host: Value, status: Value, callback: Value)
    requires IsFunction(callback)
    ensures CheckCall([check, host, status, callback]) == CheckCall([check, host, status, EmptyObject, callback])
    ensures CheckCall([check, host, status, callback]).Ok?
    ensures BodyFields(CheckCall([check, host, status, callback]).value)
         == map["check" := check, "host_name" := host, "status" := status]
  {
    OmittedIsFallback([check, host, status], EmptyObject, callback);
  }

  /**
   * `check` with the caller's own parameters object: check, host_name and
   * status are written into it in place, and the request carries what a
   * call with its old contents would carry.
   */
  method Check(check: Value, host: Value, status: Value, parameters: Operand, rest: seq<Value>)
    returns (r: Result<Call, Error>)
    modifies if parameters.Shared? then {parameters.obj} else {}
    ensures parameters.Plain? ==> r == CheckCall([check, host, status, parameters.v] + rest)
    ensures parameters.Shared? ==> r == CheckCall([check, host, status, Obj(old(parameters.obj.fields))] + rest)
    ensures parameters.Shared? ==>
      parameters.obj.fields == old(parameters.obj.fields)["check" := check]["host_name" := host]["status" := status]
  {
    match parameters
    case Plain(v) =>
      r := CheckCall([check, host, status, v] + rest);
    case Shared(o) =>
      ghost var args := [check, host, status, Obj(o.fields)] + rest;
      assert Optional(args, 3, EmptyObject) == Shifted(Obj(o.fields), Arg(rest, 0));
      o.Put("check", check);
      o.Put("host_name", host);
      o.Put("status", status);
      r := Ok(WithBody("POST", "/check_run", Obj(o.fields), Arg(rest, 0)));
  }

  /** `parameters[key] = parseInt(time)` when the flag is truthy. */
  function TimeOption(m: map<string, Value>, key: string, time: Value): (r: map<string, Value>)
    ensures Truthy(time) ==> r == m[key := ParseInt(time)]
    ensures !Truthy(time) ==> r == m
  {
    if Truthy(time) then m[key := ParseInt(time)] else m
  }

  /** `parameters.tags = tags.split(',')` when the flag is truthy; only a string can be split. */
  function TagsOption(m: map<string, Value>, tags: Value): (r: Result<map<string, Value>, Error>)
    ensures r.Err? <==> Truthy(tags) && !tags.Str?
    ensures r.Ok? && Truthy(tags) ==> r.value == m["tags" := SplitComma(tags.s)]
    ensures r.Ok? && !Truthy(tags) ==> r.value == m
  {
    if Truthy(tags) then
      var parts :- StringSplit(tags);
      Ok(m["tags" := parts])
    else Ok(m)
  }

  /**
   * The parameters the command line builds, with the time stored under
   * `timeKey`: `--time` through `parseInt`, `--message` as is, `--tags`
   * split at commas (which throws unless the flag is a string).
   */
  function CliParameters(args: CliArgs, timeKey: string): (r: Result<map<string, Value>, Error>)
    requires timeKey !in {"message", "tags"}
    ensures r.Err? <==> Truthy(args.Flag("tags")) && !args.Flag("tags").Str?
    ensures r.Ok? ==> r.value.Keys <= {timeKey, "message", "tags"}
    ensures r.Ok? ==> HasWhen(r.value, timeKey, Truthy(args.Flag("time")), ParseInt(args.Flag("time")))
    ensures r.Ok? ==> HasWhen(r.value, "message", Truthy(args.Flag("message")), args.Flag("message"))
    ensures r.Ok? && Truthy(args.Flag("tags")) ==> Has(r.value, "tags", SplitComma(args.Flag("tags").s))
    ensures r.Ok? && !Truthy(args.Flag("tags")) ==> "tags" !in r.value
  {
    var m := TimeOption(map[], timeKey, args.Flag("time"));
    var m := if Truthy(args.Flag("message")) then m["message" := args.Flag("message")] else m;
    TagsOption(m, args.Flag("tags"))
  }

  /**
   * `handleCli(subcommand, args, callback)` as written: with more than six
   * positional arguments it posts a check whatever the subcommand, but the
   * `--time` flag is stored as `time`, a key the check payload does not
   * have, rather than `timestamp`.
   */
  function HandleCliAsWritten(subcommand: string, args: CliArgs, callback: Value): (r: Result<Cli, Error>)
    ensures args.Count() <= 6 ==> r == Ok(Refuse(NotEnough))
    ensures args.Count() > 6 ==> (r.Err? <==> CliParameters(args, "time").Err?)
    ensures args.Count() > 6 && r.Ok? ==>
      r == Lift(CheckCall([args.Pos(4), args.Pos(5), ParseInt(args.Pos(6)), Obj(CliParameters(args, "time").value), callback]))
  {
    if args.Count() > 6 then
      var parameters :- CliParameters(args, "time");
      Lift(CheckCall([args.Pos(4), args.Pos(5), ParseInt(args.Pos(6)), Obj(parameters), callback]))
    else Ok(Refuse(NotEnough))
  }

  /** `handleCli` with the time sent as the check's `timestamp`, as the help text describes it. */
  function HandleCli(subcommand: string, args: CliArgs, callback: Value): (r: Result<Cli, Error>)
    ensures args.Count() <= 6 ==> r == Ok(Refuse(NotEnough))
    ensures args.Count() > 6 ==> (r.Err? <==> CliParameters(args, "timestamp").Err?)
    ensures args.Count() > 6 && r.Ok? ==>
      r == Lift(CheckCall([args.Pos(4), args.Pos(5), ParseInt(args.Pos(6)), Obj(CliParameters(args, "timestamp").value), callback]))
  {
    if args.Count() > 6 then
      var parameters :- CliParameters(args, "timestamp");
      Lift(CheckCall([args.Pos(4), args.Pos(5), ParseInt(args.Pos(6)), Obj(parameters), callback]))
    else Ok(Refuse(NotEnough))
  }

  /** As written, a `--time` reaches the payload as `time`, and the payload has no `timestamp`. */
  lemma CliTimeSentAsTime(subcommand: string, args: CliArgs, callback: Value)
    requires args.Count() > 6 && Truthy(args.Flag("time"))
    requires !Truthy(args.Flag("tags")) || args.Flag("tags").Str?
    ensures var r := HandleCliAsWritten(subcommand, args, callback);
      r.Ok? && "time" in BodyFields(r.value.call) && "timestamp" !in BodyFields(r.value.call)
  {
    var m := CliParameters(args, "time").value;
    assert "time" in m && "timestamp" !in m;
    var status := ParseInt(args.Pos(6));
    var r := CheckCall([args.Pos(4), args.Pos(5), status, Obj(m), callback]);
    assert HandleCliAsWritten(subcommand, args, callback) == Lift(r);
    assert r.Ok? && BodyFields(r.value) == m["check" := args.Pos(4)]["host_name" := args.Pos(5)]["status" := status] by {
      CheckSendsParameters(args.Pos(4), args.Pos(5), status, m, callback);
    }
  }

  /** Corrected, a `--time` reaches the payload as its `timestamp`, read by `parseInt`. */
  lemma CliTimeIsTimestamp(subcommand: string, args: CliArgs, callback: Value)
    requires args.Count() > 6 && Truthy(args.Flag("time"))
    requires !Truthy(args.Flag("tags")) || args.Flag("tags").Str?
    ensures var r := HandleCli(subcommand, args, callback);
      r.Ok? && Has(BodyFields(r.value.call), "timestamp", ParseInt(args.Flag("time")))
      && "time" !in BodyFields(r.value.call)
  {
    var m := CliParameters(args, "timestamp").value;
    assert Has(m, "timestamp", ParseInt(args.Flag("time"))) && "time" !in m;
    CliSendsParameters(subcommand, args, callback);
    OverridesKeep(m, "timestamp", ParseInt(args.Flag("time")), args.Pos(4), args.Pos(5), ParseInt(args.Pos(6)));
  }

  /** Writing check, host_name and status leaves every other key of the parameters as it was. */
  lemma OverridesKeep(m: map<string, Value>, key: string, v: Value, check: Value, host: Value, status: Value)
    requires key !in {"check", "host_name", "status"}
    ensures var body := m["check" := check]["host_name" := host]["status" := status];
      (key in body <==> key in m) && (Has(m, key, v) ==> Has(body, key, v))
  {
  }

  /**
   * With more than six positionals and splittable tags, the body is the
   * parameters the flags build, overridden by check, host_name and status.
   */
  lemma CliSendsParameters(subcommand: string, args: CliArgs, callback: Value)
    requires args.Count() > 6
    requires !Truthy(args.Flag("tags")) || args.Flag("tags").Str?
    ensures var r := HandleCli(subcommand, args, callback);
      r.Ok? && r.value.Dispatch? && BodyFields(r.value.call)
        == CliParameters(args, "timestamp").value["check" := args.Pos(4)]["host_name" := args.Pos(5)]["status" := ParseInt(args.Pos(6))]
  {
    var m := CliParameters(args, "timestamp").value;
    var status := ParseInt(args.Pos(6));
    var r := CheckCall([args.Pos(4), args.Pos(5), status, Obj(m), callback]);
    assert HandleCli(subcommand, args, callback) == Lift(r);
    CheckSendsParameters(args.Pos(4), args.Pos(5), status, m, callback);
  }

  /** The status positional argument is sent as `parseInt` reads it; the subcommand is not looked at. */
  lemma CliStatus(subcommand: string, args: CliArgs, callback: Value)
    requires args.Count() > 6
    requires !Truthy(args.Flag("tags")) || args.Flag("tags").Str?
    ensures var r := HandleCli(subcommand, args, callback);
      r.Ok? && r == HandleCli("check", args, callback)
      && Has(BodyFields(r.value.call), "status", ParseInt(args.Pos(6)))
      && Has(BodyFields(r.value.call), "check", args.Pos(4))
      && Has(BodyFields(r.value.call), "host_name", args.Pos(5))
  {
    SubcommandIgnored(subcommand, "check", args, callback);
    CliSendsParameters(subcommand, args, callback);
    OverridesSet(CliParameters(args, "timestamp").value, args.Pos(4), args.Pos(5), ParseInt(args.Pos(6)));
  }

  /** After the writes, check, host_name and status hold the three arguments. */
  lemma OverridesSet(m: map<string, Value>, check: Value, host: Value, status: Value)
    ensures var body := m["check" := check]["host_name" := host]["status" := status];
      Has(body, "check", check) && Has(body, "host_name", host) && Has(body, "status", status)
  {
  }

  /** `handleCli` never looks at its subcommand. */
  lemma SubcommandIgnored(s1: string, s2: string, args: CliArgs, callback: Value)
    ensures HandleCli(s1, args, callback) == HandleCli(s2, args, callback)
  {
  }
}
