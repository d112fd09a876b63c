/**
 * lib/api/downtime.js: the legacy downtime methods, which the old HTTP
 * client calls on itself (`this.request`); `schedule_downtime` writes the
 * scope into the options object the caller passed.
 */
module Downtime {
  import opened Wrappers
  import opened Js
  import opened Calls
  import Text
  import Http
  import HttpClient

  const ScopeNotString: string := "scope parameter must be a string"

  /**
   * `options.scope = scope` on a plain value: an object gains or replaces
   * its scope; null and undefined throw; on other primitives the write is
   * lost (the module is not in strict mode). An array keeps its elements
   * (named properties on arrays are not represented).
   */
  function Scoped(options: Value, scope: Value): (r: Result<Value, Error>)
    ensures r.Err? <==> IsNullish(options)
    ensures r.Err? ==> r.error == TypeError("scope")
    ensures options.Obj? ==> r == Ok(Obj(options.fields["scope" := scope]))
    ensures !IsNullish(options) && !options.Obj? ==> r == Ok(options)
  {
    if IsNullish(options) then Err(TypeError("scope"))
    else if options.Obj? then Ok(Obj(options.fields["scope" := scope]))
    else Ok(options)
  }

  /**
   * `schedule_downtime(scope, [options], callback)` on plain values: a
   * scope that is not a string throws before anything else; otherwise POST
   * /downtime with the options, scope set, as the body.
   */
  function ScheduleCall(args: seq<Value>): (r: Result<Call, Error>)
    ensures !Arg(args, 0).Str? ==> r == Err(Thrown(ScopeNotString))
    ensures var sh := FunctionShift(Arg(args, 1), Arg(args, 2), EmptyObject);
      Arg(args, 0).Str? ==> (r.Err? <==> IsNullish(sh.value))
    ensures var sh := FunctionShift(Arg(args, 1), Arg(args, 2), EmptyObject);
      r.Ok? ==> r.value == WithBody("POST", "/downtime", Scoped(sh.value, Arg(args, 0)).value, sh.callback)
  {
    var scope := Arg(args, 0);
    if !scope.Str? then Err(Thrown(ScopeNotString))
    else
      var sh := FunctionShift(Arg(args, 1), Arg(args, 2), EmptyObject);
      var body :- Scoped(sh.value, scope);
      Ok(WithBody("POST", "/downtime", body, sh.callback))
  }

  /** Leaving the options out schedules with body `{scope}`, as passing `{}` does. */
  lemma ScheduleOmittedOptions(scope: string, callback: Value)
    requires IsFunction(callback)
    ensures ScheduleCall([Str(scope), callback]) == ScheduleCall([Str(scope), EmptyObject, callback])
    ensures ScheduleCall([Str(scope), callback])
         == Ok(WithBody("POST", "/downtime", Obj(map["scope" := Str(scope)]), callback))
  {
  }

  /**
   * The scope argument wins over a scope in the options; every other
   * option is sent as given.
   */
  lemma ScheduleScopeWins(scope: string, fields: map<string, Value>, callback: Value)
    ensures var r := ScheduleCall([Str(scope), Obj(fields), callback]);
      r.Ok? && BodyFields(r.value) == fields["scope" := Str(scope)]
  {
  }

  /**
   * `schedule_downtime` with the caller's own options object: the scope is
   * written into it in place, and the request carries what a call with
   * its old contents would carry. A bad scope throws before the write.
   */
  method ScheduleDowntime(scope: Value, options: Operand, rest: seq<Value>) returns (r: Result<Call, Error>)
    modifies if options.Shared? then {options.obj} else {}
    ensures options.Plain? ==> r == ScheduleCall([scope, options.v] + rest)
    ensures options.Shared? ==> r == ScheduleCall([scope, Obj(old(options.obj.fields))] + rest)
    ensures options.Shared? && scope.Str? ==> options.obj.fields == old(options.obj.fields)["scope" := scope]
    ensures options.Shared? && !scope.Str? ==> options.obj.fields == old(options.obj.fields)
  {
    match options
    case Plain(v) =>
      r := ScheduleCall([scope, v] + rest);
    case Shared(o) =>
      ghost var args := [scope, Obj(o.fields)] + rest;
      assert Arg(args, 0) == scope && Arg(args, 1) == Obj(o.fields) && Arg(args, 2) == Arg(rest, 0);
      if !scope.Str? {
        r := Err(Thrown(ScopeNotString));
      } else {
        o.Put("scope", scope);
        r := Ok(WithBody("POST", "/downtime", Obj(o.fields), Arg(rest, 0)));
      }
  }

  /** `update_downtime(id, [options], callback)`: PUT /downtime/{id} with the options, unchanged, as the body. */
  function UpdateDowntime(args: seq<Value>): (c: Call)
    ensures var sh := FunctionShift(Arg(args, 1), Arg(args, 2), EmptyObject);
      c == WithBody("PUT", Format("/downtime/", Arg(args, 0), ""), sh.value, sh.callback)
  {
    var sh := FunctionShift(Arg(args, 1), Arg(args, 2), EmptyObject);
    WithBody("PUT", Format("/downtime/", Arg(args, 0), ""), sh.value, sh.callback)
  }

  /** Unlike scheduling, an update sends no scope of its own: an options object is sent exactly as given. */
  lemma UpdateAddsNoScope(id: Value, fields: map<string, Value>, callback: Value)
    ensures BodyFields(UpdateDowntime([id, Obj(fields), callback])) == fields
    ensures "scope" !in fields ==> "scope" !in BodyFields(UpdateDowntime([id, Obj(fields), callback]))
  {
  }

  /** `get_downtime(id, callback)`: GET /downtime/{id}, in the three-argument form. */
  function GetDowntime(id: Value, callback: Value): Call
  {
    Bare("GET", Format("/downtime/", id, ""), callback)
  }

  /** `cancel_downtime(id, callback)`: DELETE /downtime/{id}, in the three-argument form. */
  function CancelDowntime(id: Value, callback: Value): Call
  {
    Bare("DELETE", Format("/downtime/", id, ""), callback)
  }

  /**
   * Reading and cancelling one downtime through the legacy client: GET or
   * DELETE on /api/{version}/downtime/{id}, carrying only the two keys and
   * no body.
   */
  lemma ReadAndCancel(c: HttpClient.LegacyClient, codec: Http.Codec, id: Value, callback: Value)
    requires IsFunction(callback)
    ensures var path := "/api/" + ToString(c.apiVersion) + "/downtime/" + ToString(id);
      var keys := map["api_key" := c.apiKey, "application_key" := c.appKey];
      HttpClient.Request(c, codec, GetDowntime(id, callback))
        == Ok(Http.HttpRequest(HttpClient.BaseOptions(c, "GET"), path, keys, None))
      && HttpClient.Request(c, codec, CancelDowntime(id, callback))
        == Ok(Http.HttpRequest(HttpClient.BaseOptions(c, "DELETE"), path, keys, None))
  {
    Text.UpperVerbs();
    var api := "/api/" + ToString(c.apiVersion);
    FormatUnder(api, "/downtime/", id);
    HttpClient.BareRead(c, codec, "GET", Format("/downtime/", id, ""), callback);
    HttpClient.BareRead(c, codec, "DELETE", Format("/downtime/", id, ""), callback);
  }

  /** `get_all_downtimes([current_only], callback)`: GET /downtime, asking for current ones when the flag is truthy. */
  function GetAllDowntimes(args: seq<Value>): (c: Call)
    ensures var sh := FunctionShift(Arg(args, 0), Arg(args, 1), Bool(false));
      c.verb == "GET" && c.path == "/downtime" && |c.rest| == 2 && c.rest[1] == sh.callback
    ensures var sh := FunctionShift(Arg(args, 0), Arg(args, 1), Bool(false));
      QueryOf(c).Obj? && QueryFields(c) == (if Truthy(sh.value) then map["current_only" := Bool(true)] else map[])
  {
    var sh := FunctionShift(Arg(args, 0), Arg(args, 1), Bool(false));
    var query := if Truthy(sh.value) then map["current_only" := Bool(true)] else map[];
    WithQuery("GET", "/downtime", Obj(query), sh.callback)
  }

  /** A callback alone asks for all downtimes, not only the current ones. */
  lemma GetAllOmittedFlag(callback: Value)
    requires IsFunction(callback)
    ensures QueryFields(GetAllDowntimes([callback])) == map[]
    ensures GetAllDowntimes([callback]).rest[1] == callback
  {
  }
}
