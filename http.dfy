/**
 * What a request hands to the transport and what it gets back: the
 * outgoing request record, the events of one exchange, the
 * `(error, data, statusCode)` outcome, and the encoders it calls.
 */
module Http {
  import opened Wrappers
  import opened Js
  import Text

  /**
   * The encoders the request and the resource modules call but do not
   * define: `json.stringify`/`JSON.stringify` of an object-typed value,
   * `json.parse`/`JSON.parse` (None when the text is not JSON), and
   * `querystring.stringify` of a flat object.
   */
  datatype Codec = Codec(
    stringify: Value -> string,
    parse: string -> Option<Value>,
    formEncode: map<string, Value> -> string)

  /** `JSON.stringify(v)`: undefined for undefined and for a function, text otherwise. */
  function JsonText(codec: Codec, v: Value): (r: Value)
    ensures r.Undefined? <==> v.Undefined? || v.Fn?
    ensures r.Str? <==> !(v.Undefined? || v.Fn?)
  {
    if v.Undefined? || v.Fn? then Undefined else Str(codec.stringify(v))
  }

  /** `json.parse(text)` where a malformed text throws. */
  function ParseJson(codec: Codec, text: string): (r: Result<Value, Error>)
    ensures r.Err? <==> codec.parse(text).None?
    ensures r.Ok? ==> r.value == codec.parse(text).value
  {
    match codec.parse(text)
    case Some(v) => Ok(v)
    case None => Err(SyntaxError)
  }

  // ---------------------------------------------------------------------------
  // UTF-8, for `Buffer.byteLength`

  newtype byte = x: int | 0 <= x < 256

  /** The UTF-8 encoding of one character. */
  function EncodeChar(c: char): (bytes: seq<byte>)
    ensures 1 <= |bytes| <= 4
    ensures |bytes| == 1 <==> (c as int) < 0x80
  {
    var x := c as int;
    if x < 0x80 then [x as byte]
    else if x < 0x800 then [(0xC0 + x / 64) as byte, (0x80 + x % 64) as byte]
    else if x < 0x1_0000 then
      [(0xE0 + x / 4096) as byte, (0x80 + (x / 64) % 64) as byte, (0x80 + x % 64) as byte]
    else
      [(0xF0 + x / 262144) as byte, (0x80 + (x / 4096) % 64) as byte,
       (0x80 + (x / 64) % 64) as byte, (0x80 + x % 64) as byte]
  }

  /** The UTF-8 encoding of a string: what `req.write(body)` puts on the wire. */
  function Utf8(s: string): seq<byte> {
    if s == [] then [] else EncodeChar(s[0]) + Utf8(s[1..])
  }

  /** `Buffer.byteLength(body)`: only a string has one; anything else is a TypeError. */
  function ByteLength(body: Value): (r: Result<nat, Error>)
    ensures r.Ok? <==> body.Str?
    ensures r.Ok? ==> r.value == |Utf8(body.s)|
  {
    if body.Str? then Ok(|Utf8(body.s)|) else Err(TypeError("byteLength"))
  }

  /** A character never takes more UTF-16 units than UTF-8 bytes. */
  lemma {:induction false} UnitsAtMostBytes(s: string)
    ensures Text.Utf16Length(s) <= |Utf8(s)|
  {
    if s != [] {
      UnitsAtMostBytes(s[1..]);
    }
  }

  predicate IsAscii(s: string) {
    forall i :: 0 <= i < |s| ==> (s[i] as int) < 0x80
  }

  /** The two lengths agree exactly on ASCII text. */
  lemma {:induction false} UnitsAreBytesIffAscii(s: string)
    ensures Text.Utf16Length(s) == |Utf8(s)| <==> IsAscii(s)
  {
    if s != [] {
      UnitsAtMostBytes(s[1..]);
      UnitsAreBytesIffAscii(s[1..]);
      if IsAscii(s) {
        assert IsAscii(s[1..]);
      } else if (s[0] as int) < 0x80 {
        assert !IsAscii(s[1..]);
      }
    }
  }

  // ---------------------------------------------------------------------------
  // the outgoing request

  /**
   * The options given to `https.request`, minus `path`, with the path kept
   * as the two parts `url.format` joins: `pathname` and the `query` object.
   * `payload` is what `req.write` sends, present for POST and PUT only.
   */
  datatype HttpRequest = HttpRequest(
    options: map<string, Value>,
    pathname: string,
    query: map<string, Value>,
    payload: Option<string>)

  predicate IsWrite(verb: string) {
    verb == "POST" || verb == "PUT"
  }

  /** The body to send: an object-typed body (null included) is serialised, anything else kept. */
  function Payload(codec: Codec, body: Value): (p: Value)
    ensures IsObjectType(body) ==> p == Str(codec.stringify(body))
    ensures !IsObjectType(body) ==> p == body
    ensures body.Str? ==> p == body
  {
    if IsObjectType(body) then Str(codec.stringify(body)) else body
  }

  /**
   * The query: `{api_key, application_key}` from the client, extended by the
   * caller's `params.query` when that is object-typed, so a caller key wins.
   */
  function MergedQuery(apiKey: Value, appKey: Value, query: Value): (q: map<string, Value>)
    ensures "api_key" in q && "application_key" in q
    ensures forall k :: k in q ==> k == "api_key" || k == "application_key" || (IsObjectType(query) && k in OwnEnumerable(query))
    ensures forall k :: IsObjectType(query) && k in OwnEnumerable(query) && OwnEnumerable(query)[k] != Undefined ==>
      k in q && q[k] == OwnEnumerable(query)[k]
    ensures !IsObjectType(query) || "api_key" !in OwnEnumerable(query) || OwnEnumerable(query)["api_key"] == Undefined ==>
      q["api_key"] == apiKey
    ensures !IsObjectType(query) || "application_key" !in OwnEnumerable(query) || OwnEnumerable(query)["application_key"] == Undefined ==>
      q["application_key"] == appKey
  {
    var base := map["api_key" := apiKey, "application_key" := appKey];
    if IsObjectType(query) then Extend(base, query) else base
  }

  /** Without a caller query, the query is exactly the client's two keys. */
  lemma MergedQueryDefault(apiKey: Value, appKey: Value)
    ensures MergedQuery(apiKey, appKey, Undefined) == map["api_key" := apiKey, "application_key" := appKey]
  {
  }

  // ---------------------------------------------------------------------------
  // the response side

  /**
   * How one exchange ends: the request fails before a response (socket,
   * TLS, abort), the response stream fails, or the body is complete; then
   * `text` is the accumulated body and `parsed` what the JSON parser made of it.
   */
  datatype Event =
    | RequestFailed(err: Value)
    | StreamFailed(err: Value, status: int)
    | Ended(text: string, parsed: Option<Value>, status: int)

  /** The three arguments of the completion callback. */
  datatype Outcome = Outcome(error: Value, data: Value, status: int)

  /**
   * What the caller sees: the callback called, nothing (no callback was
   * given), or an exception thrown inside the response handler.
   */
  datatype Completion = Delivered(outcome: Outcome) | Silent | Crashed(error: Error)

  /** `if (typeof callback === 'function') callback(error, data, statusCode)`. */
  function Deliver(callback: Value, o: Outcome): (c: Completion)
    ensures c.Delivered? <==> IsFunction(callback)
    ensures c.Delivered? ==> c.outcome == o
    ensures !c.Crashed?
  {
    if IsFunction(callback) then Delivered(o) else Silent
  }
}
