/**
 * lib/api/host.js: muting and unmuting a host (POST /host), and the
 * `host` command line.
 */
module Host {
  import opened Wrappers
  import opened Js
  import opened Calls

  /** `body.end = parseInt(options.end)` when that option is truthy. */
  function EndOption(m: map<string, Value>, end: Value): (r: map<string, Value>)
    ensures Truthy(end) ==> r == m["end" := ParseInt(end)]
    ensures !Truthy(end) ==> r == m
  {
    if Truthy(end) then m["end" := ParseInt(end)] else m
  }

  /**
   * The body of `mute`: the hostname, plus for object-typed options the end
   * (through `parseInt`) and override when they are truthy; null options
   * make the read of `options.end` throw.
   */
  function MuteBody(hostname: Value, options: Value): (r: Result<map<string, Value>, Error>)
    ensures r.Err? <==> options.Null?
    ensures r.Err? ==> r.error == TypeError("end")
    ensures r.Ok? ==> Has(r.value, "hostname", hostname) && r.value.Keys <= {"hostname", "end", "override"}
    ensures r.Ok? ==> HasWhen(r.value, "end",
      IsObjectType(options) && Truthy(Prop(options, "end")), ParseInt(Prop(options, "end")))
    ensures r.Ok? ==> HasWhen(r.value, "override",
      IsObjectType(options) && Truthy(Prop(options, "override")), Prop(options, "override"))
  {
    var m := map["hostname" := hostname];
    if !IsObjectType(options) then Ok(m)
    else if options.Null? then Err(TypeError("end"))
    else
      var m := EndOption(m, Prop(options, "end"));
      Ok(if Truthy(Prop(options, "override")) then m["override" := Prop(options, "override")] else m)
  }

  /** `mute(hostname, [options], callback)`: POST /host. */
  function Mute(args: seq<Value>): (r: Result<Call, Error>)
    ensures var sh := Optional(args, 1, EmptyObject);
      r.Err? <==> sh.value.Null?
    ensures var sh := Optional(args, 1, EmptyObject);
      r.Ok? ==> r.value == WithBody("POST", "/host", Obj(MuteBody(Arg(args, 0), sh.value).value), sh.callback)
  {
    var sh := Optional(args, 1, EmptyObject);
    var body :- MuteBody(Arg(args, 0), sh.value);
    Ok(WithBody("POST", "/host", Obj(body), sh.callback))
  }

  /** A truthy `end` option is sent through `parseInt`. */
  lemma MuteEnd(hostname: Value, m: map<string, Value>, callback: Value)
    requires "end" in m && Truthy(m["end"])
    ensures var r := Mute([hostname, Obj(m), callback]);
      r.Ok? && Has(BodyFields(r.value), "end", ParseInt(m["end"]))
  {
    var body := MuteBody(hostname, Obj(m));
    assert Prop(Obj(m), "end") == m["end"];
    TruthyEndSent(hostname, Obj(m));
    assert Optional([hostname, Obj(m), callback], 1, EmptyObject) == Shifted(Obj(m), callback);
    var r := Mute([hostname, Obj(m), callback]);
    assert r == Ok(WithBody("POST", "/host", Obj(body.value), callback));
    BodyFieldsOf("POST", "/host", body.value, callback);
  }

  /** Object options with a truthy end have that end, through `parseInt`, in the body. */
  lemma TruthyEndSent(hostname: Value, options: Value)
    requires options.Obj? && Truthy(Prop(options, "end"))
    ensures var body := MuteBody(hostname, options);
      body.Ok? && Has(body.value, "end", ParseInt(Prop(options, "end")))
  {
  }

  /** A numeric end is sent as given, since `parseInt` keeps integers. */
  lemma MuteKeepsNumericEnd(hostname: Value, end: int, callback: Value)
    requires end != 0
    ensures var r := Mute([hostname, Obj(map["end" := Num(end)]), callback]);
      r.Ok? && Has(BodyFields(r.value), "end", Num(end))
  {
    MuteEnd(hostname, map["end" := Num(end)], callback);
    ParseIntOfNum(end);
  }

  /** `unmute(hostname, callback)`: POST /host with body `{hostname}`. */
  function Unmute(hostname: Value, callback: Value): (c: Call)
    ensures c.verb == "POST" && c.path == "/host" && BodyFields(c) == map["hostname" := hostname]
    ensures c.rest == [Obj(map["body" := Obj(map["hostname" := hostname])]), callback]
  {
    WithBody("POST", "/host", Obj(map["hostname" := hostname]), callback)
  }

  /**
   * `unmute` sends exactly the request `mute` sends without options, or
   * with `{}`: the server cannot tell the two apart.
   */
  lemma UnmuteIsBareMute(hostname: Value, callback: Value)
    requires IsFunction(callback)
    ensures Mute([hostname, callback]) == Ok(Unmute(hostname, callback))
    ensures Mute([hostname, EmptyObject, callback]) == Ok(Unmute(hostname, callback))
  {
    var a2, a3 := [hostname, callback], [hostname, EmptyObject, callback];
    assert Optional(a2, 1, EmptyObject) == Shifted(EmptyObject, callback);
    EmptyOptionsMute(a2, hostname, callback);
    assert Optional(a3, 1, EmptyObject) == Shifted(EmptyObject, callback);
    EmptyOptionsMute(a3, hostname, callback);
  }

  /** Muting with `{}` as the options sends the body `{hostname}` and nothing else. */
  lemma EmptyOptionsMute(args: seq<Value>, hostname: Value, callback: Value)
    requires Arg(args, 0) == hostname
    requires Optional(args, 1, EmptyObject) == Shifted(EmptyObject, callback)
    ensures Mute(args) == Ok(Unmute(hostname, callback))
  {
    assert Prop(EmptyObject, "end") == Undefined;
    assert Prop(EmptyObject, "override") == Undefined;
    assert MuteBody(hostname, EmptyObject) == Ok(map["hostname" := hostname]);
  }

  /** The options the command line builds: `--end` through `parseInt`, `--override` as is. */
  function CliOptions(args: CliArgs): (m: map<string, Value>)
    ensures m.Keys <= {"end", "override"}
    ensures HasWhen(m, "end", Truthy(args.Flag("end")), ParseInt(args.Flag("end")))
    ensures HasWhen(m, "override", Truthy(args.Flag("override")), args.Flag("override"))
  {
    var m := EndOption(map[], args.Flag("end"));
    if Truthy(args.Flag("override")) then m["override" := args.Flag("override")] else m
  }

  /** `handleCli(subcommand, args, callback)`: mute and unmute. */
  function HandleCli(subcommand: string, args: CliArgs, callback: Value): (r: Result<Cli, Error>)
    ensures subcommand !in {"mute", "unmute"} ==> r == Ok(Refuse(Unknown("host")))
    ensures subcommand == "mute" ==> r == Lift(Mute([args.Pos(4), Obj(CliOptions(args)), callback]))
    ensures subcommand == "mute" ==> r.Ok? && r.value.Dispatch?
    ensures subcommand == "unmute" ==> r == Ok(Dispatch(Unmute(args.Pos(4), callback)))
  {
    if subcommand == "mute" then Lift(Mute([args.Pos(4), Obj(CliOptions(args)), callback]))
    else if subcommand == "unmute" then Ok(Dispatch(Unmute(args.Pos(4), callback)))
    else Ok(Refuse(Unknown("host")))
  }

  /** A `--end` that `parseInt` reads as nonzero reaches the body, read by `parseInt` twice. */
  lemma CliMuteEndParsed(args: CliArgs, callback: Value)
    requires Truthy(args.Flag("end")) && Truthy(ParseInt(args.Flag("end")))
    ensures var r := HandleCli("mute", args, callback);
      r.Ok? && Has(BodyFields(r.value.call), "end", ParseInt(ParseInt(args.Flag("end"))))
  {
    MuteEnd(args.Pos(4), CliOptions(args), callback);
  }

  /** A `--end` given as a nonzero integer reaches the body unchanged. */
  lemma CliMuteEnd(args: CliArgs, callback: Value, end: int)
    requires args.Flag("end") == Num(end) && end != 0
    ensures var r := HandleCli("mute", args, callback);
      r.Ok? && Has(BodyFields(r.value.call), "end", Num(end))
  {
    ParseIntOfNum(end);
    CliMuteEndParsed(args, callback);
  }
}
