/**
 * lib/api/service_check.js: the legacy `service_check` method, mixed into
 * the old HTTP client, which checks the status against the known levels
 * and stamps the check with the current time unless told otherwise.
 */
module LegacyServiceCheck {
  import opened Wrappers
  import opened Js
  import opened Calls
  import DogApi

  /**
   * The known statuses. The constants file the source reads them from is
   * not part of this model; these are the four levels the package exports.
   */
  const Statuses: seq<Value> := [Num(DogApi.OK), Num(DogApi.WARNING), Num(DogApi.CRITICAL), Num(DogApi.UNKNOWN)]

  /** The message thrown for a status outside the known levels. */
  function UnknownStatus(status: Value): string {
    "Unknown service_check status " + ToString(status)
  }

  /** `body.timestamp`: the `timestamp` option through `parseInt` when it is truthy, else the current second. */
  function Timestamp(given: Value, nowMs: int): (t: Value)
    ensures Truthy(given) ==> t == ParseInt(given)
    ensures !Truthy(given) ==> t == Num(DogApi.Now(nowMs))
  {
    if Truthy(given) then ParseInt(given) else Num(DogApi.Now(nowMs))
  }

  /**
   * The check's body: check, status, host_name and the timestamp, plus the
   * message and the tags of `extra` when they are truthy.
   */
  function CheckBody(check: Value, status: Value, host: Value, timestamp: Value, extra: Value): (body: map<string, Value>)
    ensures Has(body, "check", check) && Has(body, "status", status) && Has(body, "host_name", host)
    ensures Has(body, "timestamp", timestamp)
    ensures HasWhen(body, "message", Truthy(Prop(extra, "message")), Prop(extra, "message"))
    ensures HasWhen(body, "tags", Truthy(Prop(extra, "tags")), Prop(extra, "tags"))
    ensures body.Keys <= {"check", "status", "host_name", "timestamp", "message", "tags"}
  {
    var body := map["check" := check, "status" := status, "host_name" := host, "timestamp" := timestamp];
    var message := Prop(extra, "message");
    var body := if Truthy(message) then body["message" := message] else body;
    var tags := Prop(extra, "tags");
    if Truthy(tags) then body["tags" := tags] else body
  }

  /**
   * `service_check(status, check, host, [extra], callback)` at the clock
   * reading `nowMs`: a function `extra` is the callback; a status other
   * than the four levels throws; a nullish `extra` makes the read of its
   * timestamp throw; otherwise POST /check_run with the check's body.
   */
  function ServiceCheck(status: Value, check: Value, host: Value, extra: Value, callback: Value, nowMs: int)
    : (r: Result<Call, Error>)
    ensures var sh := FunctionShift(extra, callback, EmptyObject);
      r.Err? <==> status !in Statuses || IsNullish(sh.value)
    ensures status !in Statuses ==> r == Err(Thrown(UnknownStatus(status)))
    ensures var sh := FunctionShift(extra, callback, EmptyObject);
      status in Statuses && IsNullish(sh.value) ==> r == Err(TypeError("timestamp"))
    ensures var sh := FunctionShift(extra, callback, EmptyObject);
      r.Ok? ==> r.value == WithBody("POST", "/check_run",
        Obj(CheckBody(check, status, host, Timestamp(Prop(sh.value, "timestamp"), nowMs), sh.value)), sh.callback)
  {
    var sh := FunctionShift(extra, callback, EmptyObject);
    if status !in Statuses then Err(Thrown(UnknownStatus(status)))
    else
      var given :- Read(sh.value, "timestamp");
      Ok(WithBody("POST", "/check_run", Obj(CheckBody(check, status, host, Timestamp(given, nowMs), sh.value)), sh.callback))
  }

  /** Each of the four exported levels is accepted, whatever the clock says. */
  lemma KnownLevelsAccepted(level: int, check: Value, host: Value, callback: Value, nowMs: int)
    requires DogApi.OK <= level <= DogApi.UNKNOWN && IsFunction(callback)
    ensures ServiceCheck(Num(level), check, host, callback, Undefined, nowMs).Ok?
    ensures ServiceCheck(Num(level), check, host, EmptyObject, callback, nowMs).Ok?
  {
    assert Num(level) == Statuses[level];
    assert FunctionShift(callback, Undefined, EmptyObject).value == EmptyObject;
    assert FunctionShift(EmptyObject, callback, EmptyObject).value == EmptyObject;
    assert Read(EmptyObject, "timestamp").Ok?;
  }

  /** A status given as text, even the text of a known level, is refused: the check is strict equality. */
  lemma TextStatusRefused(level: string, check: Value, host: Value, extra: Value, callback: Value, nowMs: int)
    ensures ServiceCheck(Str(level), check, host, extra, callback, nowMs) == Err(Thrown("Unknown service_check status " + level))
  {
  }

  /** Without a timestamp option the check is stamped with the current second. */
  lemma StampedWithNow(status: Value, check: Value, host: Value, callback: Value, nowMs: int)
    requires status in Statuses && IsFunction(callback)
    ensures var r := ServiceCheck(status, check, host, callback, Undefined, nowMs);
      r.Ok? && BodyFields(r.value) == map["check" := check, "status" := status, "host_name" := host,
                                          "timestamp" := Num(DogApi.Now(nowMs))]
  {
    assert FunctionShift(callback, Undefined, EmptyObject).value == EmptyObject;
    var t := Timestamp(Prop(EmptyObject, "timestamp"), nowMs);
    assert t == Num(DogApi.Now(nowMs));
    assert CheckBody(check, status, host, t, EmptyObject)
        == map["check" := check, "status" := status, "host_name" := host, "timestamp" := t] by {
      assert Prop(EmptyObject, "message") == Undefined && Prop(EmptyObject, "tags") == Undefined;
    }
  }

  /** A nonzero integer timestamp option is sent as given, whatever the clock says. */
  lemma GivenTimestampKept(status: Value, check: Value, host: Value, t: int, callback: Value, nowMs: int)
    requires status in Statuses && t != 0
    ensures var r := ServiceCheck(status, check, host, Obj(map["timestamp" := Num(t)]), callback, nowMs);
      r.Ok? && Has(BodyFields(r.value), "timestamp", Num(t))
  {
    var o := Obj(map["timestamp" := Num(t)]);
    assert Prop(o, "timestamp") == Num(t);
    TimestampSent(status, check, host, o, callback, nowMs);
    assert Timestamp(Num(t), nowMs) == Num(t) by {
      ParseIntOfNum(t);
    }
  }

  /** Options given as an object send their `timestamp` option through `Timestamp`. */
  lemma TimestampSent(status: Value, check: Value, host: Value, extra: Value, callback: Value, nowMs: int)
    requires status in Statuses && extra.Obj?
    ensures var r := ServiceCheck(status, check, host, extra, callback, nowMs);
      r.Ok? && Has(BodyFields(r.value), "timestamp", Timestamp(Prop(extra, "timestamp"), nowMs))
  {
    var sh := FunctionShift(extra, callback, EmptyObject);
    assert sh.value == extra && !IsNullish(extra);
    assert Read(extra, "timestamp") == Ok(Prop(extra, "timestamp"));
  }

  /**
   * Calling with neither options nor callback throws once the status is
   * accepted: the timestamp is read from the missing options.
   */
  lemma OmittedOptionsThrow(status: Value, check: Value, host: Value, nowMs: int)
    requires status in Statuses
    ensures ServiceCheck(status, check, host, Undefined, Undefined, nowMs) == Err(TypeError("timestamp"))
  {
  }
}
