/**
 * lib/api/graph.js: metric snapshots (GET /graph/snapshot) and the `graph`
 * command line. The module's `createEmbed` is `embed.create` itself, which
 * `Embed.Create` models.
 */
module Graph {
  import opened Wrappers
  import opened Js
  import opened Calls
  import Text

  /** The snapshot query: the metric query, the bounds as read, and the event query when truthy. */
  function SnapshotQuery(query: Value, start: Value, end: Value, eventQuery: Value): (m: map<string, Value>)
    ensures Has(m, "metric_query", query) && Has(m, "start", start) && Has(m, "end", end)
    ensures HasWhen(m, "event_query", Truthy(eventQuery), eventQuery)
    ensures m.Keys <= {"metric_query", "start", "end", "event_query"}
  {
    var m := map["metric_query" := query, "start" := start, "end" := end];
    if Truthy(eventQuery) then m["event_query" := eventQuery] else m
  }

  /** `snapshot(query, from, to, [eventQuery], callback)`: GET /graph/snapshot. */
  function Snapshot(args: seq<Value>): (c: Call)
    ensures c.verb == "GET" && c.path == "/graph/snapshot"
    ensures var q := QueryFields(c);
      Has(q, "metric_query", Arg(args, 0)) && Has(q, "start", ParseInt(Arg(args, 1)))
      && Has(q, "end", ParseInt(Arg(args, 2))) && q.Keys <= {"metric_query", "start", "end", "event_query"}
    ensures var sh := Optional(args, 3, Undefined);
      HasWhen(QueryFields(c), "event_query", Truthy(sh.value), sh.value)
  {
    var sh := Optional(args, 3, Undefined);
    var q := SnapshotQuery(Arg(args, 0), ParseInt(Arg(args, 1)), ParseInt(Arg(args, 2)), sh.value);
    QueryFieldsOf("GET", "/graph/snapshot", q, sh.callback);
    WithQuery("GET", "/graph/snapshot", Obj(q), sh.callback)
  }

  /** A full five-argument call, with the bounds already read by `parseInt`. */
  lemma SnapshotOfFull(query: Value, from: Value, to: Value, eventQuery: Value, callback: Value)
    ensures Snapshot([query, from, to, eventQuery, callback])
         == WithQuery("GET", "/graph/snapshot", Obj(SnapshotQuery(query, ParseInt(from), ParseInt(to), eventQuery)), callback)
  {
    var args := [query, from, to, eventQuery, callback];
    assert Arg(args, 0) == query && Arg(args, 1) == from && Arg(args, 2) == to;
    assert Optional(args, 3, Undefined) == Shifted(eventQuery, callback);
  }

  /** Leaving the event query out, or passing a falsy one, asks for no event bands. */
  lemma SnapshotWithoutEvents(query: Value, from: Value, to: Value, eventQuery: Value, callback: Value)
    requires IsFunction(callback) && !Truthy(eventQuery)
    ensures Snapshot([query, from, to, callback]) == Snapshot([query, from, to, eventQuery, callback])
    ensures QueryFields(Snapshot([query, from, to, callback]))
         == map["metric_query" := query, "start" := ParseInt(from), "end" := ParseInt(to)]
  {
    var short := [query, from, to, callback];
    assert Arg(short, 0) == query && Arg(short, 1) == from && Arg(short, 2) == to;
    assert Optional(short, 3, Undefined) == Shifted(Undefined, callback);
    SnapshotOfFull(query, from, to, eventQuery, callback);
    SnapshotOfFull(query, from, to, Undefined, callback);
    QueryFieldsOf("GET", "/graph/snapshot", SnapshotQuery(query, ParseInt(from), ParseInt(to), Undefined), callback);
  }

  /** Integer bounds, the usual POSIX timestamps, are sent unchanged. */
  lemma SnapshotKeepsIntegerBounds(query: Value, from: int, to: int, eventQuery: Value, callback: Value)
    ensures var q := QueryFields(Snapshot([query, Num(from), Num(to), eventQuery, callback]));
      Has(q, "start", Num(from)) && Has(q, "end", Num(to))
  {
    ParseIntOfNum(from);
    ParseIntOfNum(to);
    SnapshotOfFull(query, Num(from), Num(to), eventQuery, callback);
    QueryFieldsOf("GET", "/graph/snapshot", SnapshotQuery(query, Num(from), Num(to), eventQuery), callback);
  }

  /** The snapshot the command line takes: positions 4 to 6, the bounds through `parseInt`, `--events`. */
  function CliSnapshot(args: CliArgs, callback: Value): Call
  {
    Snapshot([args.Pos(4), ParseInt(args.Pos(5)), ParseInt(args.Pos(6)), args.Flag("events"), callback])
  }

  /**
   * `handleCli(subcommand, args, callback)` as written: `snapshot` is taken
   * with more than five positional arguments, although the `to` bound is
   * the seventh.
   */
  function HandleCliAsWritten(subcommand: string, args: CliArgs, callback: Value): (r: Cli)
    ensures args.Count() > 5 && subcommand == "snapshot" ==> r == Dispatch(CliSnapshot(args, callback))
    ensures !(args.Count() > 5 && subcommand == "snapshot") ==> r == Refuse(Unknown("graph"))
  {
    if args.Count() > 5 && subcommand == "snapshot" then Dispatch(CliSnapshot(args, callback))
    else Refuse(Unknown("graph"))
  }

  /** `handleCli` requiring all three of query, from and to, as its usage line does. */
  function HandleCli(subcommand: string, args: CliArgs, callback: Value): (r: Cli)
    ensures args.Count() > 6 && subcommand == "snapshot" ==> r == Dispatch(CliSnapshot(args, callback))
    ensures !(args.Count() > 6 && subcommand == "snapshot") ==> r == Refuse(Unknown("graph"))
  {
    if args.Count() > 6 && subcommand == "snapshot" then Dispatch(CliSnapshot(args, callback))
    else Refuse(Unknown("graph"))
  }

  /**
   * As written, `dogapi graph snapshot <query> <from>` with the `to` bound
   * left out is sent, with `end` NaN; corrected, it gets the usage message.
   */
  lemma CliMissingToSent(args: CliArgs, callback: Value)
    requires args.Count() == 6
    ensures var r := HandleCliAsWritten("snapshot", args, callback);
      r.Dispatch? && Has(QueryFields(r.call), "end", NaN)
    ensures HandleCli("snapshot", args, callback) == Refuse(Unknown("graph"))
  {
    assert args.Pos(6) == Undefined;
    ParseIntOfUndefined();
    SnapshotEndNaN(args.Pos(4), ParseInt(args.Pos(5)), args.Flag("events"), callback);
  }

  /** A bound that reads as NaN is sent as NaN. */
  lemma SnapshotEndNaN(query: Value, from: Value, eventQuery: Value, callback: Value)
    ensures Has(QueryFields(Snapshot([query, from, NaN, eventQuery, callback])), "end", NaN)
  {
    ParseIntOfNaN();
    SnapshotOfFull(query, from, NaN, eventQuery, callback);
    QueryFieldsOf("GET", "/graph/snapshot", SnapshotQuery(query, ParseInt(from), NaN, eventQuery), callback);
  }

  /**
   * The command line reads each bound with `parseInt` and `snapshot` reads
   * it again; the second reading changes nothing.
   */
  lemma CliBoundsParsedOnce(args: CliArgs, callback: Value)
    requires args.Count() > 6
    ensures var r := HandleCli("snapshot", args, callback);
      r.Dispatch? && Has(QueryFields(r.call), "metric_query", args.Pos(4))
      && Has(QueryFields(r.call), "start", ParseInt(args.Pos(5)))
      && Has(QueryFields(r.call), "end", ParseInt(args.Pos(6)))
  {
    ParseIntTwice(args.Pos(5));
    ParseIntTwice(args.Pos(6));
    SnapshotOfFull(args.Pos(4), ParseInt(args.Pos(5)), ParseInt(args.Pos(6)), args.Flag("events"), callback);
    QueryFieldsOf("GET", "/graph/snapshot",
      SnapshotQuery(args.Pos(4), ParseInt(args.Pos(5)), ParseInt(args.Pos(6)), args.Flag("events")), callback);
  }
}
