/**
 * lib/api/metric.js: submitting series (with the in-place normalisation of
 * each metric's points), the metric query, and the `metric` command line.
 */
module Metric {
  import opened Wrappers
  import opened Js
  import opened Calls
  import DogApi

  // ---------------------------------------------------------------------------
  // normalisation

  /** `[now, x]`: a point stamped with the call's time. */
  function Stamped(now: int, x: Value): Value {
    Arr([Num(now), x])
  }

  /**
   * The points of one metric as sent: a non-array value is one point, and
   * every point that is not an array is stamped with `now`.
   */
  function NormalisePoints(now: int, points: Value): (r: Value)
    ensures r.Arr?
    ensures forall j :: 0 <= j < |r.items| ==> r.items[j].Arr?
    ensures !points.Arr? ==> r == Arr([Stamped(now, points)])
    ensures points.Arr? ==> |r.items| == |points.items|
    ensures points.Arr? ==> forall j :: 0 <= j < |points.items| ==>
      r.items[j] == if points.items[j].Arr? then points.items[j] else Stamped(now, points.items[j])
  {
    var pts := if points.Arr? then points.items else [points];
    Arr(seq(|pts|, j requires 0 <= j < |pts| => if pts[j].Arr? then pts[j] else Stamped(now, pts[j])))
  }

  /** Normalised points are left alone by a second normalisation, whatever its time. */
  lemma NormalisePointsIdempotent(now: int, later: int, points: Value)
    ensures NormalisePoints(later, NormalisePoints(now, points)) == NormalisePoints(now, points)
  {
    var once := NormalisePoints(now, points);
    var twice := NormalisePoints(later, once);
    assert |twice.items| == |once.items|;
    assert forall j :: 0 <= j < |once.items| ==> twice.items[j] == once.items[j];
  }

  /**
   * One element of `send_all`'s array after its turn of the loop: for an
   * object, `points` normalised, `type` set to `type || metric_type`, and
   * `metric_type` deleted; writes to a primitive are lost, so it is unchanged.
   */
  function NormaliseEntry(now: int, e: Value): (r: Value)
    ensures !e.Obj? ==> r == e
    ensures e.Obj? ==> (r.Obj?
      && "metric_type" !in r.fields
      && Has(r.fields, "points", NormalisePoints(now, Prop(e, "points")))
      && Has(r.fields, "type", Or(Prop(e, "type"), Prop(e, "metric_type")))
      && forall k :: k in e.fields && k !in {"points", "type", "metric_type"} ==> Has(r.fields, k, e.fields[k]))
    ensures e.Obj? ==> r.fields.Keys == e.fields.Keys - {"metric_type"} + {"points", "type"}
  {
    if e.Obj? then
      Obj((e.fields - {"metric_type"})["points" := NormalisePoints(now, Prop(e, "points"))]
                                      ["type" := Or(Prop(e, "type"), Prop(e, "metric_type"))])
    else e
  }

  /**
   * Normalising an already normalised metric again changes nothing, unless
   * its type came out falsy but defined (then a second pass turns it into
   * undefined, since `metric_type` is gone).
   */
  lemma NormaliseEntryIdempotent(now: int, later: int, e: Value)
    requires e.Obj? ==> (Truthy(Or(Prop(e, "type"), Prop(e, "metric_type"))) || Or(Prop(e, "type"), Prop(e, "metric_type")) == Undefined)
    ensures NormaliseEntry(later, NormaliseEntry(now, e)) == NormaliseEntry(now, e)
  {
    if e.Obj? {
      var once := NormaliseEntry(now, e);
      NormalisePointsIdempotent(now, later, Prop(e, "points"));
      assert NormaliseEntry(later, once).fields == once.fields;
    }
  }

  /** A metric whose `metric_type` is null and `type` absent: the second pass differs. */
  lemma NormaliseEntryNotIdempotentOnNullType()
    ensures var e := Obj(map["metric_type" := Null]);
      NormaliseEntry(0, NormaliseEntry(0, e)) != NormaliseEntry(0, e)
  {
    var e := Obj(map["metric_type" := Null]);
    assert NormaliseEntry(0, e).fields["type"] == Null;
    assert NormaliseEntry(0, NormaliseEntry(0, e)).fields["type"] == Undefined;
  }

  /** The first element whose `points` cannot be read, or the length when there is none. */
  function FirstNullish(s: seq<Value>): (k: nat)
    ensures k <= |s|
    ensures k < |s| ==> IsNullish(s[k])
    ensures forall i :: 0 <= i < k ==> !IsNullish(s[i])
  {
    if s == [] then 0 else if IsNullish(s[0]) then 0 else 1 + FirstNullish(s[1..])
  }

  /**
   * `send_all(metrics, callback)`: the loop rewrites each element of the
   * caller's array in place, then `{series: metrics}` is posted to /series.
   * A null or undefined element throws when its `points` is read: the
   * elements before it are already rewritten, the rest are untouched, and no
   * request is made.
   */
  method SendAll(metrics: array<Value>, ms: int, callback: Value) returns (r: Result<Call, Error>)
    modifies metrics
    ensures var k := FirstNullish(old(metrics[..]));
      (forall i :: 0 <= i < k ==> metrics[i] == NormaliseEntry(DogApi.Now(ms), old(metrics[i])))
      && (forall i :: k <= i < metrics.Length ==> metrics[i] == old(metrics[i]))
    ensures r.Err? <==> exists i :: 0 <= i < metrics.Length && IsNullish(old(metrics[i]))
    ensures r.Err? ==> r.error == TypeError("points")
    ensures r.Ok? ==> r.value == WithBody("POST", "/series", Obj(map["series" := Arr(metrics[..])]), callback)
  {
    var now := DogApi.Now(ms);
    var i := 0;
    while i < metrics.Length
      invariant 0 <= i <= metrics.Length
      invariant forall j :: 0 <= j < i ==> !IsNullish(old(metrics[j]))
      invariant forall j :: 0 <= j < i ==> metrics[j] == NormaliseEntry(now, old(metrics[j]))
      invariant forall j :: i <= j < metrics.Length ==> metrics[j] == old(metrics[j])
    {
      if IsNullish(metrics[i]) {
        assert FirstNullish(old(metrics[..])) == i by {
          FirstNullishAt(old(metrics[..]), i);
        }
        return Err(TypeError("points"));
      }
      metrics[i] := NormaliseEntry(now, metrics[i]);
      i := i + 1;
    }
    FirstNullishNone(old(metrics[..]));
    r := Ok(WithBody("POST", "/series", Obj(map["series" := Arr(metrics[..])]), callback));
  }

  lemma {:induction false} FirstNullishAt(s: seq<Value>, i: nat)
    requires i < |s| && IsNullish(s[i])
    requires forall j :: 0 <= j < i ==> !IsNullish(s[j])
    ensures FirstNullish(s) == i
  {
    if i > 0 {
      FirstNullishAt(s[1..], i - 1);
    }
  }

  lemma {:induction false} FirstNullishNone(s: seq<Value>)
    requires forall j :: 0 <= j < |s| ==> !IsNullish(s[j])
    ensures FirstNullish(s) == |s|
  {
    if s != [] {
      FirstNullishNone(s[1..]);
    }
  }

  // ---------------------------------------------------------------------------
  // send and query

  /**
   * The one series `send(metric, points, [extra], callback)` builds before
   * handing it to `send_all`; `extra` is `{}` when omitted or falsy.
   */
  function Series(args: seq<Value>): (e: Value)
    ensures e.Obj? && e.fields.Keys == {"metric", "points", "host", "tags", "type"}
  {
    var extra := Or(Optional(args, 2, EmptyObject).value, EmptyObject);
    Obj(map["metric" := Arg(args, 0), "points" := Arg(args, 1),
            "host" := Prop(extra, "host"), "tags" := Prop(extra, "tags"),
            "type" := Or(Prop(extra, "type"), Prop(extra, "metric_type"))])
  }

  /** The `series` array of a call's body, empty when the body has none. */
  function SeriesOf(c: Call): seq<Value> {
    var b := BodyFields(c);
    if "series" in b && b["series"].Arr? then b["series"].items else []
  }

  /** `send(...)`: the call `send_all` makes for a one-element array holding the series. */
  function Send(args: seq<Value>, ms: int): (c: Call)
    ensures c.verb == "POST" && c.path == "/series"
    ensures |c.rest| == 2 && c.rest[1] == Optional(args, 2, EmptyObject).callback
    ensures |SeriesOf(c)| == 1 && SeriesOf(c)[0].Obj?
    ensures var extra := Or(Optional(args, 2, EmptyObject).value, EmptyObject);
      var fields := SeriesOf(c)[0].fields;
      fields.Keys == {"metric", "points", "host", "tags", "type"}
      && fields["metric"] == Arg(args, 0)
      && fields["points"] == NormalisePoints(DogApi.Now(ms), Arg(args, 1))
      && fields["host"] == Prop(extra, "host") && fields["tags"] == Prop(extra, "tags")
      && (Truthy(fields["type"]) <==> Truthy(Prop(extra, "type")) || Truthy(Prop(extra, "metric_type")))
      && (Truthy(fields["type"]) ==> fields["type"] == Or(Prop(extra, "type"), Prop(extra, "metric_type")))
      && (!Truthy(fields["type"]) ==> fields["type"] == Undefined)
  {
    var entry := NormaliseEntry(DogApi.Now(ms), Series(args));
    WithBody("POST", "/series", Obj(map["series" := Arr([entry])]), Optional(args, 2, EmptyObject).callback)
  }

  /** `send` is `send_all` on a fresh one-element array. */
  method SendViaSendAll(args: seq<Value>, ms: int) returns (r: Result<Call, Error>)
    ensures r == Ok(Send(args, ms))
  {
    var series := new Value[1](_ => Series(args));
    assert series[..] == [Series(args)];
    r := SendAll(series, ms, Optional(args, 2, EmptyObject).callback);
    assert series[..] == [NormaliseEntry(DogApi.Now(ms), Series(args))];
  }

  /** Omitting `extra` and passing `{}` send the same series. */
  lemma SendOmittedExtra(metric: Value, points: Value, callback: Value, ms: int)
    requires IsFunction(callback)
    ensures Send([metric, points, callback], ms) == Send([metric, points, EmptyObject, callback], ms)
  {
    OmittedIsFallback([metric, points], EmptyObject, callback);
  }

  /** `query(from, to, q, callback)`: GET /query with the three values as the query. */
  function Query(from: Value, to: Value, q: Value, callback: Value): (c: Call)
    ensures c.verb == "GET" && c.path == "/query" && |c.rest| == 2 && c.rest[1] == callback
    ensures QueryFields(c) == map["from" := from, "to" := to, "query" := q]
  {
    WithQuery("GET", "/query", Obj(map["from" := from, "to" := to, "query" := q]), callback)
  }

  // ---------------------------------------------------------------------------
  // command line

  /** The `extra` object the `send` subcommand builds from the flags. */
  function CliExtra(args: CliArgs): (r: Result<map<string, Value>, Error>)
    ensures r.Err? <==> Truthy(args.Flag("tags")) && !args.Flag("tags").Str?
    ensures r.Ok? ==> Has(r.value, "host", args.Flag("host")) && Has(r.value, "type", args.Flag("type"))
    ensures r.Ok? ==> r.value.Keys <= {"tags", "host", "type"}
    ensures r.Ok? ==> ("tags" in r.value <==> Truthy(args.Flag("tags")))
    ensures r.Ok? && "tags" in r.value ==> r.value["tags"] == SplitComma(args.Flag("tags").s)
  {
    var withTags: map<string, Value> :-
      if Truthy(args.Flag("tags")) then
        (match StringSplit(args.Flag("tags"))
         case Ok(t) => Ok(map["tags" := t])
         case Err(e) => Err(e))
      else Ok(map[]);
    Ok(withTags["host" := args.Flag("host")]["type" := args.Flag("type")])
  }

  /**
   * `handleCli(subcommand, args, callback)`: `send` with more than five
   * positionals, `query` with more than six, otherwise the usage message.
   */
  function HandleCli(subcommand: string, args: CliArgs, callback: Value, ms: int): (r: Result<Cli, Error>)
    ensures subcommand != "send" && subcommand != "query" ==> r == Ok(Refuse(Unknown("metric")))
    ensures subcommand == "send" && args.Count() <= 5 ==> r == Ok(Refuse(Unknown("metric")))
    ensures subcommand == "query" && args.Count() <= 6 ==> r == Ok(Refuse(Unknown("metric")))
    ensures r.Err? <==> (subcommand == "send" && args.Count() > 5 && CliExtra(args).Err?)
    ensures subcommand == "send" && args.Count() > 5 && CliExtra(args).Ok? ==>
      r == Ok(Dispatch(Send([args.Pos(4), args.Pos(5), Obj(CliExtra(args).value), callback], ms)))
    ensures subcommand == "query" && args.Count() > 6 ==>
      r == Ok(Dispatch(Query(ParseInt(args.Pos(4)), ParseInt(args.Pos(5)), args.Pos(6), callback)))
  {
    if args.Count() > 5 && subcommand == "send" then
      var extra :- CliExtra(args);
      Ok(Dispatch(Send([args.Pos(4), args.Pos(5), Obj(extra), callback], ms)))
    else if subcommand == "query" && args.Count() > 6 then
      Ok(Dispatch(Query(ParseInt(args.Pos(4)), ParseInt(args.Pos(5)), args.Pos(6), callback)))
    else
      Ok(Refuse(Unknown("metric")))
  }

  /** From the command line, the tags flag arrives as the series' tags array, and joins back to the flag. */
  lemma CliSendTags(args: CliArgs, callback: Value, ms: int)
    requires args.Count() > 5 && args.Flag("tags").Str? && args.Flag("tags").s != ""
    ensures HandleCli("send", args, callback, ms).Ok?
    ensures var c := HandleCli("send", args, callback, ms).value;
      c.Dispatch? && |SeriesOf(c.call)| == 1 && SeriesOf(c.call)[0].Obj?
      && var tags := SeriesOf(c.call)[0].fields["tags"];
         tags.Arr? && JoinValues(tags.items) == args.Flag("tags").s
  {
    var t := args.Flag("tags").s;
    assert CliExtra(args).Ok? && CliExtra(args).value["tags"] == SplitComma(t);
    var extra := CliExtra(args).value;
    assert HandleCli("send", args, callback, ms) == Ok(Dispatch(Send([args.Pos(4), args.Pos(5), Obj(extra), callback], ms)));
    SendTags(args.Pos(4), args.Pos(5), extra, callback, ms);
    JoinOfSplit(t);
  }

  /** The series `send` posts carries the tags of its `extra` object. */
  lemma SendTags(metric: Value, points: Value, extra: map<string, Value>, callback: Value, ms: int)
    requires "tags" in extra
    ensures var c := Send([metric, points, Obj(extra), callback], ms);
      |SeriesOf(c)| == 1 && SeriesOf(c)[0].Obj? && SeriesOf(c)[0].fields["tags"] == extra["tags"]
  {
    var sendArgs := [metric, points, Obj(extra), callback];
    assert Or(Optional(sendArgs, 2, EmptyObject).value, EmptyObject) == Obj(extra);
  }
}
