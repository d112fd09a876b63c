/**
 * The JavaScript values the library handles and the few language rules its
 * code depends on: truthiness, `typeof`, property reads (which throw on
 * `null`/`undefined`), `||`, `String(v)`, `parseInt`, `for ... in` keys,
 * `extend(target, src)` and lodash's `assign`, and the `arguments` array.
 */
module Js {
  import opened Wrappers
  import Text

  /**
   * A JavaScript value. Numbers are integral (NaN apart); objects map their
   * property names to values and do not record insertion order; a function
   * is known only by an identity.
   */
  datatype Value =
    | Undefined
    | Null
    | Bool(b: bool)
    | Num(n: int)
    | NaN
    | Str(s: string)
    | Arr(items: seq<Value>)
    | Obj(fields: map<string, Value>)
    | Fn(id: nat)

  /** What a call can throw. */
  datatype Error =
    | TypeError(detail: string)     // reading property `detail` of null or undefined, or a bad argument to `detail`
    | ReferenceError(name: string)  // evaluating an undeclared identifier
    | SyntaxError                   // `json.parse` of malformed text
    | Thrown(message: string)       // `throw new Error(message)`

  const EmptyObject: Value := Obj(map[])

  predicate Truthy(v: Value) {
    match v
    case Undefined => false
    case Null => false
    case Bool(b) => b
    case Num(n) => n != 0
    case NaN => false
    case Str(s) => s != ""
    case _ => true
  }

  function TypeOf(v: Value): string {
    match v
    case Undefined => "undefined"
    case Null => "object"
    case Bool(_) => "boolean"
    case Num(_) => "number"
    case NaN => "number"
    case Str(_) => "string"
    case Arr(_) => "object"
    case Obj(_) => "object"
    case Fn(_) => "function"
  }

  /** `typeof v === 'object'`, which holds of null too. */
  predicate IsObjectType(v: Value) {
    TypeOf(v) == "object"
  }

  predicate IsFunction(v: Value) {
    v.Fn?
  }

  predicate IsNullish(v: Value) {
    v.Undefined? || v.Null?
  }

  /** `m` has property `k` with value `v`. */
  predicate Has(m: map<string, Value>, k: string, v: Value) {
    k in m && m[k] == v
  }

  /** `a || b`: the first operand when it is truthy, else the second. */
  function Or(a: Value, b: Value): (r: Value)
    ensures Truthy(r) <==> Truthy(a) || Truthy(b)
    ensures Truthy(a) ==> r == a
    ensures !Truthy(a) ==> r == b
  {
    if Truthy(a) then a else b
  }

  /** `arguments[i]`: undefined past the end. */
  function Arg(args: seq<Value>, i: nat): Value {
    if i < |args| then args[i] else Undefined
  }

  /** `String(v)`; an array joins its elements with ',' and shows null and undefined as "". */
  function ToString(v: Value): string {
    match v
    case Undefined => "undefined"
    case Null => "null"
    case Bool(b) => if b then "true" else "false"
    case Num(n) => Text.IntToString(n)
    case NaN => "NaN"
    case Str(s) => s
    case Arr(items) =>
      Text.Join(seq(|items|, i requires 0 <= i < |items| =>
        if IsNullish(items[i]) then "" else ToString(items[i])), ',')
    case Obj(_) => "[object Object]"
    case Fn(_) => "function"
  }

  /** `parseInt(v)`: `v` is converted with `String` first. */
  function ParseInt(v: Value): Value {
    match Text.ParseInt(ToString(v))
    case Some(n) => Num(n)
    case None => NaN
  }

  /** `parseInt` gives an integer back unchanged. */
  lemma ParseIntOfNum(n: int)
    ensures ParseInt(Num(n)) == Num(n)
  {
    Text.ParseIntOfIntToString(n);
  }

  /** Reading a value with `parseInt` twice gives what reading it once gives. */
  lemma ParseIntTwice(v: Value)
    ensures ParseInt(ParseInt(v)) == ParseInt(v)
  {
    var p := ParseInt(v);
    assert p.Num? || p == NaN;
    if p.Num? {
      ParseIntOfNum(p.n);
    } else {
      ParseIntOfNaN();
    }
  }

  /** `parseInt(NaN)` reads the text "NaN", which has no digits, and is NaN again. */
  lemma ParseIntOfNaN()
    ensures ParseInt(NaN) == NaN
  {
    Text.ParseIntOfWord("NaN");
  }

  /** `parseInt(undefined)` reads the text "undefined", which has no digits, and is NaN. */
  lemma ParseIntOfUndefined()
    ensures ParseInt(Undefined) == NaN
  {
    Text.ParseIntOfWord("undefined");
  }

  /** `parts.join(',')` over values, as `Array.prototype.join` renders them. */
  function JoinValues(items: seq<Value>): string {
    ToString(Arr(items))
  }

  /** `s.split(',')` as an array of strings. */
  function SplitComma(s: string): (r: Value)
    ensures r.Arr? && |r.items| > 0
    ensures forall i :: 0 <= i < |r.items| ==> r.items[i].Str?
  {
    var parts := Text.Split(s, ',');
    Arr(seq(|parts|, i requires 0 <= i < |parts| => Str(parts[i])))
  }

  /** Joining a split string restores it: `s.split(',').join(',') === s`. */
  lemma JoinOfSplit(s: string)
    ensures JoinValues(SplitComma(s).items) == s
  {
    var parts := Text.Split(s, ',');
    var items := SplitComma(s).items;
    var strs := seq(|items|, i requires 0 <= i < |items| =>
      if IsNullish(items[i]) then "" else ToString(items[i]));
    assert strs == parts;
    Text.JoinSplit(s, ',');
  }

  /** `v.join(',')`, which only an array supports. */
  function ArrayJoin(v: Value): (r: Result<Value, Error>)
    ensures r.Ok? <==> v.Arr?
    ensures r.Ok? ==> r.value == Str(JoinValues(v.items))
    ensures r.Err? ==> r.error == TypeError("join")
  {
    if v.Arr? then Ok(Str(JoinValues(v.items))) else Err(TypeError("join"))
  }

  /** The text `v.join(',')` gives for an array, undefined for anything else. */
  function Joined(v: Value): Value {
    if v.Arr? then Str(JoinValues(v.items)) else Undefined
  }

  /** `v.split(',')`, which only a string supports; joining the parts gives `v` back. */
  function StringSplit(v: Value): (r: Result<Value, Error>)
    ensures r.Ok? <==> v.Str?
    ensures r.Ok? ==> r.value == SplitComma(v.s) && JoinValues(r.value.items) == v.s
    ensures r.Err? ==> r.error == TypeError("split")
  {
    if v.Str? then
      JoinOfSplit(v.s);
      Ok(SplitComma(v.s))
    else Err(TypeError("split"))
  }

  // ---------------------------------------------------------------------------
  // properties

  /** A property read that cannot throw: undefined where the key is absent. */
  function Prop(v: Value, key: string): Value {
    match v
    case Obj(m) => if key in m then m[key] else Undefined
    case Arr(items) =>
      if key == "length" then Num(|items|)
      else (match Text.ParseIndex(key)
            case Some(i) => if i < |items| then items[i] else Undefined
            case None => Undefined)
    case Str(s) =>
      if key == "length" then Num(Text.Utf16Length(s))
      else (match Text.ParseIndex(key)
            case Some(i) => if i < |s| then Str([s[i]]) else Undefined
            case None => Undefined)
    case _ => Undefined
  }

  /** `v[key]`: a TypeError when `v` is null or undefined. */
  function Read(v: Value, key: string): (r: Result<Value, Error>)
    ensures r.Err? <==> IsNullish(v)
    ensures r.Ok? ==> r.value == Prop(v, key)
    ensures r.Err? ==> r.error == TypeError(key)
  {
    if IsNullish(v) then Err(TypeError(key)) else Ok(Prop(v, key))
  }

  /**
   * The own enumerable properties that `for ... in`, `extend` and `assign`
   * visit: an object's fields, an array's or a string's indices.
   */
  function OwnEnumerable(v: Value): (m: map<string, Value>)
    ensures forall k :: k in m ==> Prop(v, k) == m[k]
  {
    Text.NatToStringInjectiveAll();
    match v
    case Obj(fields) => fields
    case Arr(items) =>
      IndicesRead(v);
      map i | 0 <= i < |items| :: Text.NatToString(i) := items[i]
    case Str(s) =>
      IndicesRead(v);
      map i | 0 <= i < |s| :: Text.NatToString(i) := Str([s[i]])
    case _ => map[]
  }

  lemma IndicesRead(v: Value)
    ensures v.Arr? ==> forall i :: 0 <= i < |v.items| ==> Prop(v, Text.NatToString(i)) == v.items[i]
    ensures v.Str? ==> forall i :: 0 <= i < |v.s| ==> Prop(v, Text.NatToString(i)) == Str([v.s[i]])
  {
    forall i: nat {
      Text.ParseIndexOfNatToString(i);
    }
  }

  /**
   * `extend(target, src)` (shallow): every own enumerable property of `src`
   * whose value is not undefined is copied over `target`; null and undefined
   * sources add nothing.
   */
  function Extend(target: map<string, Value>, src: Value): (r: map<string, Value>)
    ensures forall k :: k in r <==> k in target || (k in OwnEnumerable(src) && OwnEnumerable(src)[k] != Undefined)
    ensures forall k :: k in r ==>
      r[k] == if k in OwnEnumerable(src) && OwnEnumerable(src)[k] != Undefined then OwnEnumerable(src)[k] else target[k]
  {
    var m := OwnEnumerable(src);
    target + map k | k in m && m[k] != Undefined :: m[k]
  }

  /** lodash's `assign(a, b)` as a value: the own properties of `a`, then those of `b`, undefined values included. */
  function Assign(a: Value, b: map<string, Value>): (r: map<string, Value>)
    ensures r.Keys == OwnEnumerable(a).Keys + b.Keys
    ensures forall k :: k in b ==> r[k] == b[k]
    ensures forall k :: k in r && k !in b ==> r[k] == OwnEnumerable(a)[k]
  {
    OwnEnumerable(a) + b
  }

  // ---------------------------------------------------------------------------
  // optional arguments

  /** An optional argument after arity sniffing, and the callback. */
  datatype Shifted = Shifted(value: Value, callback: Value)

  /**
   * The guard `if (arguments.length < pos + 2 && typeof arguments[pos] === 'function')
   * { callback = arguments[pos]; x = fallback; }`: a function in the optional
   * position of a short call is the callback, and the option takes its fallback.
   */
  function Optional(args: seq<Value>, pos: nat, fallback: Value): (r: Shifted)
    ensures |args| == pos + 1 && IsFunction(args[pos]) ==> r == Shifted(fallback, args[pos])
    ensures |args| >= pos + 2 || !IsFunction(Arg(args, pos)) ==> r == Shifted(Arg(args, pos), Arg(args, pos + 1))
  {
    if |args| < pos + 2 && IsFunction(Arg(args, pos)) then Shifted(fallback, Arg(args, pos))
    else Shifted(Arg(args, pos), Arg(args, pos + 1))
  }

  /**
   * The older guard `if (typeof options === 'function') { callback = options;
   * options = dflt; }`, which does not look at the argument count.
   */
  function FunctionShift(options: Value, callback: Value, dflt: Value): (s: Shifted)
    ensures IsFunction(options) ==> s == Shifted(dflt, options)
    ensures !IsFunction(options) ==> s == Shifted(options, callback)
  {
    if IsFunction(options) then Shifted(dflt, options) else Shifted(options, callback)
  }

  /**
   * Omitting the optional argument and passing its fallback explicitly are the
   * same call.
   */
  lemma OmittedIsFallback(prefix: seq<Value>, fallback: Value, callback: Value)
    requires IsFunction(callback)
    ensures Optional(prefix + [callback], |prefix|, fallback)
         == Optional(prefix + [fallback, callback], |prefix|, fallback)
  {
    var short := prefix + [callback];
    var long := prefix + [fallback, callback];
    assert short[|prefix|] == callback;
    assert Arg(long, |prefix|) == fallback && Arg(long, |prefix| + 1) == callback;
  }

  // ---------------------------------------------------------------------------
  // objects shared with the caller

  /** An object the caller keeps a reference to, so writes into it are visible to the caller. */
  class JsObject {
    var fields: map<string, Value>

    constructor(fields: map<string, Value>)
      ensures this.fields == fields
    {
      this.fields := fields;
    }

    /** `o[key] = v`. */
    method Put(key: string, v: Value)
      modifies this
      ensures fields == old(fields)[key := v]
    {
      fields := fields[key := v];
    }
  }

  /** An argument in a position where the callee may write into it. */
  datatype Operand = Shared(obj: JsObject) | Plain(v: Value)
}
