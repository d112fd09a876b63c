/**
 * What a resource module does with its arguments: one call of the client's
 * `request(verb, path, ...)`, or, from a command-line handler, either
 * such a call or the usage message passed to the callback with `false`.
 */
module Calls {
  import opened Wrappers
  import opened Js

  /**
   * `client.request(verb, path, ...rest)`: `rest` is `[params, callback]`
   * in the four-argument form and `[callback]` in the three-argument form.
   */
  datatype Call = Call(verb: string, path: string, rest: seq<Value>)

  /** `client.request(verb, path, params, callback)`. */
  function WithParams(verb: string, path: string, params: map<string, Value>, callback: Value): Call {
    Call(verb, path, [Obj(params), callback])
  }

  /** `client.request(verb, path, {body: body}, callback)`. */
  function WithBody(verb: string, path: string, body: Value, callback: Value): Call {
    WithParams(verb, path, map["body" := body], callback)
  }

  /** `client.request(verb, path, {query: query}, callback)`. */
  function WithQuery(verb: string, path: string, query: Value, callback: Value): Call {
    WithParams(verb, path, map["query" := query], callback)
  }

  /** `client.request(verb, path, callback)`. */
  function Bare(verb: string, path: string, callback: Value): Call {
    Call(verb, path, [callback])
  }

  /** The params argument as written (the callback, in the three-argument form). */
  function ParamsOf(c: Call): Value {
    Arg(c.rest, 0)
  }

  /** The fields of the params object, empty when params is not an object. */
  function ParamsFields(c: Call): map<string, Value> {
    var p := ParamsOf(c);
    if p.Obj? then p.fields else map[]
  }

  /** `util.format(prefix + '%s' + suffix, id)`. */
  function Format(prefix: string, id: Value, suffix: string): string {
    prefix + ToString(id) + suffix
  }

  /** A formatted path under a prefix such as `/api/v1`: the id's text follows the path's prefix. */
  lemma FormatUnder(api: string, prefix: string, id: Value)
    ensures api + Format(prefix, id, "") == api + prefix + ToString(id)
  {
    var t := ToString(id);
    assert Format(prefix, id, "") == prefix + t;
    assert api + (prefix + t) == api + prefix + t;
  }

  /** A literal path around an id's text, under a prefix. */
  lemma PathUnder(api: string, prefix: string, id: Value, suffix: string)
    ensures api + (prefix + ToString(id) + suffix) == api + prefix + ToString(id) + suffix
  {
    var t := ToString(id);
    assert api + (prefix + t + suffix) == api + prefix + t + suffix;
  }

  function BodyOf(c: Call): Value {
    Prop(ParamsOf(c), "body")
  }

  function QueryOf(c: Call): Value {
    Prop(ParamsOf(c), "query")
  }

  /** The fields of the body object, empty when the body is not an object. */
  function BodyFields(c: Call): map<string, Value> {
    var b := BodyOf(c);
    if b.Obj? then b.fields else map[]
  }

  /** The fields of the query object, empty when the query is not an object. */
  function QueryFields(c: Call): map<string, Value> {
    var q := QueryOf(c);
    if q.Obj? then q.fields else map[]
  }

  /** The query object of a `{query: ...}` call is read back as given. */
  lemma QueryFieldsOf(verb: string, path: string, m: map<string, Value>, callback: Value)
    ensures QueryFields(WithQuery(verb, path, Obj(m), callback)) == m
  {
  }

  /** The body object of a `{body: ...}` call is read back as given. */
  lemma BodyFieldsOf(verb: string, path: string, m: map<string, Value>, callback: Value)
    ensures BodyFields(WithBody(verb, path, Obj(m), callback)) == m
  {
  }

  /** The body-building rule "key is present exactly when `present`, and then holds `v`". */
  predicate HasWhen(m: map<string, Value>, key: string, present: bool, v: Value) {
    (key in m <==> present) && (key in m ==> m[key] == v)
  }

  /** A key present only with a falsy value reads as falsy either way. */
  lemma FalsyWhen(m: map<string, Value>, key: string, present: bool, v: Value)
    requires HasWhen(m, key, present, v) && !Truthy(v)
    ensures !Truthy(Prop(Obj(m), key))
  {
  }

  // ---------------------------------------------------------------------------
  // the command line

  /** What the argument parser gives a `handleCli`: `args._` and the `--flag` values. */
  datatype CliArgs = CliArgs(positional: seq<Value>, flags: map<string, Value>) {
    /** `args._[i]` */
    function Pos(i: nat): Value {
      Arg(positional, i)
    }

    /** `args[name]` */
    function Flag(name: string): Value {
      if name in flags then flags[name] else Undefined
    }

    /** `args._.length` */
    function Count(): nat {
      |positional|
    }
  }

  /** A `handleCli` either calls an operation or passes `(message, false)` to the callback. */
  datatype Cli = Dispatch(call: Call) | Refuse(message: string)

  /** A handler that calls an operation which may throw: the call, or the exception. */
  function Lift(r: Result<Call, Error>): (c: Result<Cli, Error>)
    ensures c.Ok? <==> r.Ok?
    ensures r.Ok? ==> c.value == Dispatch(r.value)
    ensures r.Err? ==> c.error == r.error
  {
    match r
    case Ok(call) => Ok(Dispatch(call))
    case Err(e) => Err(e)
  }

  /** The usage message every module's `handleCli` uses for an unknown subcommand. */
  function Unknown(name: string): string {
    "unknown subcommand or arguments try `dogapi " + name + " --help` for help"
  }
}
