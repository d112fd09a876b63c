/**
 * lib/api/event.js: posting, reading and querying events. `create` and
 * `query` write title and text, or start and end, into the object the
 * caller passed, and send that object.
 */
module Event {
  import opened Wrappers
  import opened Js
  import opened Calls
  import opened Http
  import DatadogClient
  import Text

  /**
   * `if (typeof o !== 'object') o = {}; o[a] = av; o[b] = bv;` as a value:
   * a non-object becomes `{a, b}`, an object gets both keys overwritten and
   * keeps the others, and null makes the first write throw. An array keeps
   * its elements (named properties on arrays are not represented).
   */
  function Stamped(o: Value, a: string, av: Value, b: string, bv: Value): (r: Result<Value, Error>)
    requires a != b
    ensures r.Err? <==> o.Null?
    ensures r.Err? ==> r.error == TypeError(a)
    ensures !IsObjectType(o) ==> r == Ok(Obj(map[a := av, b := bv]))
    ensures o.Obj? ==> r.Ok? && r.value.Obj? && r.value.fields.Keys == o.fields.Keys + {a, b}
    ensures o.Obj? ==> Has(r.value.fields, a, av) && Has(r.value.fields, b, bv)
    ensures o.Obj? ==> forall k :: k in o.fields && k != a && k != b ==> Has(r.value.fields, k, o.fields[k])
    ensures o.Arr? ==> r == Ok(o)
  {
    if !IsObjectType(o) then Ok(Obj(map[a := av, b := bv]))
    else if o.Null? then Err(TypeError(a))
    else if o.Obj? then Ok(Obj(o.fields[a := av][b := bv]))
    else Ok(o)
  }

  /**
   * `create(title, text, [properties], callback)` on plain values: POST
   * /events with the properties, title and text set, as the body.
   */
  function CreateCall(args: seq<Value>): (r: Result<Call, Error>)
    ensures var sh := Optional(args, 2, EmptyObject);
      r.Err? <==> sh.value.Null?
    ensures var sh := Optional(args, 2, EmptyObject);
      r.Ok? ==> r.value == WithBody("POST", "/events", Stamped(sh.value, "title", Arg(args, 0), "text", Arg(args, 1)).value, sh.callback)
  {
    var sh := Optional(args, 2, EmptyObject);
    var body :- Stamped(sh.value, "title", Arg(args, 0), "text", Arg(args, 1));
    Ok(WithBody("POST", "/events", body, sh.callback))
  }

  /** The title and text arguments win over same-named properties; the other properties are sent as given. */
  lemma CreateOverwritesTitleAndText(title: Value, text: Value, fields: map<string, Value>, callback: Value)
    ensures var r := CreateCall([title, text, Obj(fields), callback]);
      r.Ok? && Has(BodyFields(r.value), "title", title) && Has(BodyFields(r.value), "text", text)
      && BodyFields(r.value) == fields["title" := title]["text" := text]
  {
    assert Optional([title, text, Obj(fields), callback], 2, EmptyObject) == Shifted(Obj(fields), callback);
  }

  /** Leaving the properties out is the same as passing `{}`: the body is `{title, text}`. */
  lemma CreateOmittedProperties(title: Value, text: Value, callback: Value)
    requires IsFunction(callback)
    ensures CreateCall([title, text, callback]) == CreateCall([title, text, EmptyObject, callback])
    ensures CreateCall([title, text, callback]).Ok?
    ensures BodyFields(CreateCall([title, text, callback]).value) == map["title" := title, "text" := text]
  {
    OmittedIsFallback([title, text], EmptyObject, callback);
  }

  /**
   * `create` with the caller's own properties object: the object is
   * changed in place to hold title and text, and the request carries what
   * a call with a copy of its old contents would carry.
   */
  method Create(title: Value, text: Value, properties: Operand, rest: seq<Value>) returns (r: Result<Call, Error>)
    modifies if properties.Shared? then {properties.obj} else {}
    ensures properties.Plain? ==> r == CreateCall([title, text, properties.v] + rest)
    ensures properties.Shared? ==> r == CreateCall([title, text, Obj(old(properties.obj.fields))] + rest)
    ensures properties.Shared? ==> properties.obj.fields == old(properties.obj.fields)["title" := title]["text" := text]
  {
    match properties
    case Plain(v) =>
      r := CreateCall([title, text, v] + rest);
    case Shared(o) =>
      ghost var args := [title, text, Obj(o.fields)] + rest;
      assert Optional(args, 2, EmptyObject) == Shifted(Obj(o.fields), Arg(rest, 0));
      o.Put("title", title);
      o.Put("text", text);
      r := Ok(WithBody("POST", "/events", Obj(o.fields), Arg(rest, 0)));
  }

  /** `get(eventId, callback)`: GET /events/{id}, in the three-argument form. */
  function Get(id: Value, callback: Value): Call
  {
    Bare("GET", Format("/events/", id, ""), callback)
  }

  /**
   * With a function callback: GET /api/{version}/events/{id}, carrying only the
   * two keys and no body; with no callback, reading `params.body` throws.
   */
  lemma GetRequest(c: DatadogClient.Client, codec: Codec, id: Value, callback: Value)
    requires IsFunction(callback)
    ensures var r := c.Request(codec, Get(id, callback));
      r.Ok? && r.value.pathname == "/api/" + ToString(c.apiVersion) + "/events/" + ToString(id)
      && Has(r.value.options, "method", Str("GET")) && r.value.payload == None
      && r.value.query == map["api_key" := c.apiKey, "application_key" := c.appKey]
    ensures c.Request(codec, Get(id, Undefined)) == Err(TypeError("body"))
  {
    assert c.Request(codec, Get(id, Undefined)) == Err(TypeError("body")) by {
      DatadogClient.BareCall(c, codec, "GET", Format("/events/", id, ""), Undefined);
    }
    var api := "/api/" + ToString(c.apiVersion);
    FormatUnder(api, "/events/", id);
    Text.UpperVerbs();
    DatadogClient.BareCall(c, codec, "GET", Format("/events/", id, ""), callback);
  }


  /**
   * `query(start, end, [parameters], callback)` as written: the arity check
   * of a short call reads the undeclared `argument`, so every call with
   * fewer than four arguments throws a ReferenceError before any request.
   */
  function QueryCallAsWritten(args: seq<Value>): (r: Result<Call, Error>)
    ensures |args| < 4 ==> r == Err(ReferenceError("argument"))
    ensures |args| >= 4 ==> (r.Err? <==> args[2].Null?)
    ensures |args| >= 4 && r.Ok? ==>
      r.value == WithQuery("GET", "/events", Stamped(args[2], "start", args[0], "end", args[1]).value, args[3])
  {
    if |args| < 4 then Err(ReferenceError("argument"))
    else
      var q :- Stamped(args[2], "start", args[0], "end", args[1]);
      Ok(WithQuery("GET", "/events", q, args[3]))
  }

  /**
   * `query` with the arity check reading `arguments[2]`, as intended: a
   * function third is the callback and the parameters are `{}`.
   */
  function QueryCall(args: seq<Value>): (r: Result<Call, Error>)
    ensures var sh := Optional(args, 2, EmptyObject);
      r.Err? <==> sh.value.Null?
    ensures var sh := Optional(args, 2, EmptyObject);
      r.Ok? ==> r.value == WithQuery("GET", "/events", Stamped(sh.value, "start", Arg(args, 0), "end", Arg(args, 1)).value, sh.callback)
  {
    var sh := Optional(args, 2, EmptyObject);
    var q :- Stamped(sh.value, "start", Arg(args, 0), "end", Arg(args, 1));
    Ok(WithQuery("GET", "/events", q, sh.callback))
  }

  /** The documented short call `query(start, end, callback)` throws as written, and sends `{start, end}` as intended. */
  lemma QueryShortCallThrows(start: Value, end: Value, callback: Value)
    requires IsFunction(callback)
    ensures QueryCallAsWritten([start, end, callback]) == Err(ReferenceError("argument"))
    ensures QueryCall([start, end, callback]) == Ok(WithQuery("GET", "/events", Obj(map["start" := start, "end" := end]), callback))
  {
    assert Optional([start, end, callback], 2, EmptyObject) == Shifted(EmptyObject, callback);
  }

  /** With all four arguments the two agree: the misspelling is only reached by short calls. */
  lemma QueryAgreesOnFullCalls(args: seq<Value>)
    requires |args| >= 4
    ensures QueryCallAsWritten(args) == QueryCall(args)
  {
    assert Optional(args, 2, EmptyObject) == Shifted(args[2], args[3]);
  }

  /** Leaving the parameters out is the same as passing `{}`. */
  lemma QueryOmittedParameters(start: Value, end: Value, callback: Value)
    requires IsFunction(callback)
    ensures QueryCall([start, end, callback]) == QueryCall([start, end, EmptyObject, callback])
  {
    OmittedIsFallback([start, end], EmptyObject, callback);
  }

  /**
   * `query` (with the corrected arity check) on the caller's own
   * parameters object: start and end are written into it in place, and
   * the request carries what a call with its old contents would carry.
   */
  method Query(start: Value, end: Value, parameters: Operand, rest: seq<Value>) returns (r: Result<Call, Error>)
    modifies if parameters.Shared? then {parameters.obj} else {}
    ensures parameters.Plain? ==> r == QueryCall([start, end, parameters.v] + rest)
    ensures parameters.Shared? ==> r == QueryCall([start, end, Obj(old(parameters.obj.fields))] + rest)
    ensures parameters.Shared? ==> parameters.obj.fields == old(parameters.obj.fields)["start" := start]["end" := end]
  {
    match parameters
    case Plain(v) =>
      r := QueryCall([start, end, v] + rest);
    case Shared(o) =>
      ghost var args := [start, end, Obj(o.fields)] + rest;
      assert Optional(args, 2, EmptyObject) == Shifted(Obj(o.fields), Arg(rest, 0));
      o.Put("start", start);
      o.Put("end", end);
      r := Ok(WithQuery("GET", "/events", Obj(o.fields), Arg(rest, 0)));
  }
}
