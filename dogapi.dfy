/**
 * The package entry (lib/index.js): the shared client that
 * `dogapi.initialize(options)` configures in place, `new dogapi(options)`
 * with a client of its own, `dogapi.now()`, and the service-check status
 * constants.
 */
module DogApi {
  import opened Js
  import opened DatadogClient

  const OK: int := 0
  const WARNING: int := 1
  const CRITICAL: int := 2
  const UNKNOWN: int := 3

  /**
   * The client's properties after copying every key of `src` that the client
   * already owns; keys it does not own are ignored.
   */
  function Overlay(props: map<string, Value>, src: map<string, Value>): (m: map<string, Value>)
    ensures m.Keys == props.Keys
    ensures forall k :: k in props && k in src ==> m[k] == src[k]
    ensures forall k :: k in props && k !in src ==> m[k] == props[k]
  {
    map k | k in props :: if k in src then src[k] else props[k]
  }

  /**
   * `initialize(options)`: for each key of `options || {}` that is one of the
   * client's own properties, `client[key] = options[key]`. The order of the
   * keys does not matter, as each is written once.
   */
  method Initialize(client: Client, options: Value)
    modifies client
    ensures client.Owned() == Overlay(old(client.Owned()), OwnEnumerable(Or(options, EmptyObject)))
  {
    var src := OwnEnumerable(Or(options, EmptyObject));
    ghost var start := client.Owned();
    var pending := src.Keys;
    assert src - pending == map[];
    while pending != {}
      invariant pending <= src.Keys
      invariant client.Owned() == Overlay(start, src - pending)
      decreases pending
    {
      var key :| key in pending;
      OverlayStep(start, src, pending, key);
      if key in OwnKeys {
        client.SetOwned(key, src[key]);
      }
      pending := pending - {key};
    }
    assert src - pending == src;
  }

  /** Copying one more key of the source. */
  lemma OverlayStep(props: map<string, Value>, src: map<string, Value>, pending: set<string>, key: string)
    requires key in pending && pending <= src.Keys
    ensures key in props ==> Overlay(props, src - (pending - {key})) == Overlay(props, src - pending)[key := src[key]]
    ensures key !in props ==> Overlay(props, src - (pending - {key})) == Overlay(props, src - pending)
  {
  }

  /** `initialize()` with no options, or any falsy options, changes nothing. */
  lemma InitializeFalsyIsNoop(props: map<string, Value>, options: Value)
    requires !Truthy(options)
    ensures Overlay(props, OwnEnumerable(Or(options, EmptyObject))) == props
  {
  }

  /** Initializing twice with the same options is the same as once. */
  lemma InitializeIdempotent(props: map<string, Value>, src: map<string, Value>)
    ensures Overlay(Overlay(props, src), src) == Overlay(props, src)
  {
  }

  /**
   * Initializing the default client with options whose values are all truthy
   * gives the client `new DatadogMetricClient(options)` would build; a falsy
   * value is copied as is, where the constructor would fall back.
   */
  lemma InitializeMatchesConstructor(fields: map<string, Value>)
    requires forall k :: k in fields ==> Truthy(fields[k])
    ensures Overlay(Configured(EmptyObject), OwnEnumerable(Or(Obj(fields), EmptyObject))) == Configured(Obj(fields))
  {
  }

  /** An explicitly empty version is kept by `initialize`, though the constructor would use v1. */
  lemma InitializeKeepsFalsyValue()
    ensures Overlay(Configured(EmptyObject), OwnEnumerable(Obj(map["api_version" := Str("")])))["api_version"] == Str("")
    ensures Configured(Obj(map["api_version" := Str("")]))["api_version"] == Str("v1")
  {
  }

  /** `new dogapi(options)`: a client of its own, built from `options || {}`. */
  method NewInstance(options: Value) returns (client: Client)
    ensures fresh(client)
    ensures client.Owned() == Configured(Or(options, EmptyObject))
  {
    client := new Client(Or(options, EmptyObject));
  }

  /**
   * `now()`: `parseInt(milliseconds / 1000)`, the POSIX time in seconds
   * truncated toward zero.
   */
  function Now(ms: int): (s: int)
    ensures ms >= 0 ==> 0 <= ms - 1000 * s < 1000
    ensures ms < 0 ==> 0 <= 1000 * s - ms < 1000
  {
    if ms >= 0 then ms / 1000 else -((-ms) / 1000)
  }

  /** The seconds advance with the milliseconds. */
  lemma NowMonotonic(a: int, b: int)
    requires a <= b
    ensures Now(a) <= Now(b)
  {
  }
}
