# node-dogapi in Dafny

A model of the core of `dogapi`, the Node.js client for the Datadog HTTP API.

The package has two HTTP clients:

- **The current client** (`lib/client.js`) is a class whose configuration `initialize` overwrites in place. Its `request(verb, path, [params], callback)` method builds an HTTPS request: the API keys go in the query, the body is serialised JSON, and the response is read back as JSON.
- **The legacy client** (`lib/http_client.js`) is configured from options or environment variables. The legacy methods of `lib/api/downtime.js`, `lib/api/screen.js`, `lib/api/dash.js` and `lib/api/service_check.js` are mixed into it and call it as `this.request`.

Each resource module under `lib/api/` turns its arguments into one `request` call, and its `handleCli` turns command-line arguments into one call of the module's operations. The resource modules are metric, monitor, timeboard, screenboard, tag, embed, comment, event, host, service-check and graph. `graph.createEmbed` is `embed.create` itself, so `Embed.Create` models both.

How the model represents the program:

- JavaScript values are the datatype `Js.Value`, and thrown exceptions are `Js.Error`.
- A module operation is a function from its `arguments` (a `seq<Value>`, so the arity tests are exact) to `Result<Calls.Call, Error>`. A `Call` records the verb, the path and the remaining arguments handed to `request`, so the three-argument form stays visible.
- The current client is the class `DatadogClient.Client`. `DogApi.Initialize` is a method that loops over the option keys and writes them into the client.
- `Metric.SendAll` rewrites the caller's array in place, as `send_all` does.
- Operations that write into an object the caller passed in are methods over a `Js.JsObject`: `event.create`, `event.query`, `check` and `schedule_downtime`.
- The legacy client is a value, `HttpClient.LegacyClient`, since nothing mutates it after construction.

Each request is modelled up to the record handed to `https.request`: options, pathname, query and the text written. `Finish` and `Interpret` in both clients model what the callback receives for each way the exchange can end.

## Model

| member | source | states |
|---|---|---|
| DatadogClient.Configured | lib/client.js:15-22 | each property is the option when truthy, else its fallback (null keys and agent, version v1, the public host) |
| DatadogClient.ConfiguredDefaults | lib/client.js:16-21 | with no options the keys and agent are null, the version "v1" and the host "app.datadoghq.com" |
| DatadogClient.Client.constructor | lib/client.js:15-22 | the new client's own properties are exactly `Configured(options)` |
| DatadogClient.Client.SetOwned | lib/index.js:48 | writing one own property changes that property and no other |
| DatadogClient.Client.Request | lib/client.js:49-86 | the request fails exactly when params are nullish or a write has a body that does not serialise to text; otherwise the pathname is the path under /api/{version}, the query is the two keys extended by the caller's query, writes and only writes carry a payload, which is `json.stringify` of an object body and the body itself otherwise, the options are the client's `http_options` with hostname, port 443 and the verb in capitals written over them and the proxy agent when truthy, plus on writes the headers with the payload's UTF-8 byte count |
| DatadogClient.RequestArgs | lib/client.js:50-53 | a three-argument call with a function gets params `{body: ''}`; any other call passes its params and callback as given |
| DatadogClient.BareCall | lib/client.js:50-55 | a three-argument call with a function callback always builds, with the two keys as the only query, the empty body on POST/PUT and none otherwise; with no callback, reading `params.body` throws a TypeError |
| DatadogClient.EmptyParamsRead | lib/client.js:55-75 | a read with params `{}` builds whatever the callback, with no payload, under /api/{version} |
| DatadogClient.TextBodyWrite | lib/client.js:55-86 | a POST or PUT whose params carry a text body builds, sends that text unchanged, and labels it with the params' truthy content type (else JSON) and its length in bytes |
| DatadogClient.ObjectBodyWrite | lib/client.js:55-86 | a POST or PUT whose params carry an object body sends its `json.stringify` text, with that text's length in bytes |
| DatadogClient.RequestCarriesHttpOptions | lib/client.js:65-79 | every built request keeps each `http_options` key it does not set itself, and carries the proxy agent exactly when it is truthy, else `http_options`' own agent |
| DatadogClient.HeadersOverTransport | lib/client.js:65-79 | writing headers over the transport options keeps the `http_options` keys, the agent rule and the absence of a path |
| DatadogClient.TransportOptions | lib/client.js:70-79 | the caller's http_options with hostname, port and method overriding them, the path kept apart, and the agent only when the proxy agent is truthy |
| DatadogClient.MergedOptions | lib/client.js:70-75 | hostname, port and method are the client's, the path is not among the options, every other http_options property is kept, and nothing else is added |
| DatadogClient.Interpret | lib/client.js:100-116 | a body that does not parse counts as `{}`; a truthy `errors` field becomes the error and nulls the data; a parsed `null` throws on reading `errors` |
| DatadogClient.InterpretExclusive | lib/client.js:109-115 | on every finished response exactly one of error and data is set |
| DatadogClient.Finish | lib/client.js:88-130 | a request or response error reaches a function callback as the error with no data; an ended response reaches it as interpreted; a non-function callback is never called |
| Http.JsonText | lib/api/embed.js:53 | `JSON.stringify` is undefined for undefined and functions, text for everything else |
| Http.ParseJson | lib/api/timeboard.js:253 | a text that does not parse throws; one that does gives its value |
| Http.EncodeChar | lib/client.js:84 | a character takes one to four bytes in UTF-8, and one byte exactly when it is ASCII |
| Http.ByteLength | lib/client.js:84 | `Buffer.byteLength` is the UTF-8 byte count of a string, and a TypeError for anything else |
| Http.UnitsAtMostBytes | lib/http_client.js:101 | a string never has more UTF-16 units than UTF-8 bytes |
| Http.UnitsAreBytesIffAscii | lib/http_client.js:101 | the UTF-16 length equals the byte length exactly when the text is ASCII |
| Http.Payload | lib/client.js:55 | object-typed bodies (null included) are serialised and anything else is kept |
| Http.MergedQuery | lib/client.js:56-63 | the query holds the two keys, and every defined property of an object-typed caller query, which wins over the keys |
| Http.MergedQueryDefault | lib/client.js:56-63 | without a caller query the query is exactly the two keys |
| Http.Deliver | lib/client.js:114-116 | the callback is called with error, data and status exactly when it is a function |
| Js.Or | lib/client.js:16-21 | `a \|\| b` is truthy when either is; it is `a` when `a` is truthy and `b` otherwise |
| Js.Read | lib/api/service_check.js:34 | reading a property of null or undefined throws a TypeError naming the key; otherwise it gives the property |
| Js.OwnEnumerable | lib/index.js:46 | every key `for ... in` visits reads back as its value |
| Js.Extend | lib/client.js:62 | every defined own property of the source is copied over the target, and nothing else changes |
| Js.Assign | lib/client.js:70-75 | the keys are those of both operands, and the second operand wins |
| Js.Optional | lib/api/monitor.js:32-35 | a function in the optional position of a short call is the callback and the value is the fallback; otherwise both are the arguments as given |
| Js.OmittedIsFallback | lib/api/monitor.js:32-35 | omitting the optional argument equals passing its fallback |
| Js.FunctionShift | lib/api/downtime.js:20-23 | a function options value becomes the callback and the options the default, whatever the arity |
| Js.ParseIntOfNum | lib/api/host.js:37 | `parseInt` returns an integer unchanged |
| Js.ParseIntTwice | lib/api/graph.js:67-68 | `parseInt` applied twice equals `parseInt` once |
| Js.ParseIntOfNaN | lib/api/graph.js:67-68 | `parseInt(NaN)` is NaN |
| Js.SplitComma | lib/api/monitor.js:382-383 | splitting gives a non-empty array of strings |
| Js.StringSplit | lib/api/metric.js:204 | `split` throws unless the value is a string, and the parts join back to it |
| Js.JoinOfSplit | lib/api/tag.js:247 | `s.split(',').join(',')` is `s` |
| Js.ArrayJoin | lib/api/monitor.js:89 | `join` throws unless the value is an array |
| Js.JsObject.constructor | lib/api/event.js:54-55 | a caller-held object with the given fields |
| Js.JsObject.Put | lib/api/event.js:54-55 | a property write changes that key and no other |
| Calls.Lift | lib/api/tag.js:247 | a handler whose operation throws reports the exception; otherwise it dispatches the call |
| HttpClient.EnvVar | lib/http_client.js:31 | an environment variable reads as its text, or undefined when unset |
| HttpClient.OptionsOrEmpty | lib/http_client.js:29 | falsy options become `{}`; truthy ones are kept |
| HttpClient.Setting | lib/http_client.js:31-46 | a setting is the option when truthy, else the environment variable |
| HttpClient.NewAsWritten | lib/http_client.js:29-52 | as written, construction throws exactly when no api key is found, whether or not an app key is; otherwise each key is its option or environment variable, and version and host fall back to v1 and app.datadoghq.com |
| HttpClient.New | lib/http_client.js:29-52 | corrected, construction throws when the api key is missing, and when the app key is missing, each with its own message; otherwise each key is its option or environment variable, and version and host fall back to v1 and app.datadoghq.com |
| HttpClient.SettingsPrecedence | lib/http_client.js:41-49 | version and host are each the truthy option, else a non-empty environment variable, else the default |
| HttpClient.AppKeyGuardIneffective | lib/http_client.js:36-39 | with an api key and no app key anywhere, the written constructor succeeds and the corrected one throws |
| HttpClient.NewAgreesWhenAppKeyGiven | lib/http_client.js:36-39 | the two constructors agree whenever an app key is supplied |
| HttpClient.LegacyArgs | lib/http_client.js:70-75 | a three-argument call with a function gets params `{}`, and falsy params become `{}` |
| HttpClient.RequestAsWritten | lib/http_client.js:70-103 | a write whose body is missing throws reading its length, and one whose body is not a string is refused; Content-Length is the body's UTF-16 length |
| HttpClient.Request | lib/http_client.js:98-103 | corrected, Content-Length is the UTF-8 byte count of the text written |
| HttpClient.RequestDiffersOnlyInLength | lib/http_client.js:98-103 | the written and corrected requests differ at most in the Content-Length header |
| HttpClient.ContentLengthExactIffAscii | lib/http_client.js:101 | the written header equals the bytes sent exactly when the body is ASCII, and is short otherwise |
| HttpClient.ContentLengthShortForAccent | lib/http_client.js:101 | for the body "é" the written header says 1 and two bytes are sent |
| HttpClient.Interpret | lib/http_client.js:117-128 | a body that does not parse is passed on as its text; a parsed null throws on reading `errors`; a truthy `errors` field becomes the error and nulls the data; otherwise the parsed value is the data |
| HttpClient.InterpretMatchesClient | lib/http_client.js:119 | both clients read a parsed body alike; they differ only on text that is not JSON |
| HttpClient.Finish | lib/http_client.js:105-137 | every way an exchange ends, as the callback sees it: a request or stream error, an unparsed text, a parsed null that throws, and a parsed value delivered as `Interpret` reads it |
| HttpClient.BareRead | lib/http_client.js:70-96 | a three-argument read with a callback asks for the verb in capitals on the path under /api/{version}, with only the two keys and nothing written |
| HttpClient.BareCallsAlwaysBuild | lib/http_client.js:70-75 | a three-argument call never throws for want of params, even without a callback |
| DogApi.Overlay | lib/index.js:46-50 | exactly the source's keys that the client owns take the source's values; all other properties keep theirs |
| DogApi.Initialize | lib/index.js:44-51 | after `initialize(options)` the client's properties are the overlay of `options \|\| {}` on the old ones |
| DogApi.OverlayStep | lib/index.js:46-50 | copying one more key extends the overlay by that key |
| DogApi.InitializeFalsyIsNoop | lib/index.js:45 | falsy options change nothing |
| DogApi.InitializeIdempotent | lib/index.js:44-51 | initializing twice with the same options equals once |
| DogApi.InitializeMatchesConstructor | lib/index.js:44-51 | with all-truthy options, initializing the default client gives what the constructor builds |
| DogApi.InitializeKeepsFalsyValue | lib/index.js:48 | an empty version is kept by `initialize`, although the constructor would use v1 |
| DogApi.NewInstance | lib/index.js:53-58 | `new dogapi(options)` owns a fresh client configured from `options \|\| {}` |
| DogApi.Now | lib/index.js:75-77 | the time in seconds is the millisecond time divided by 1000, truncated toward zero |
| DogApi.NowMonotonic | lib/index.js:75-77 | seconds never decrease as milliseconds increase |
| Metric.NormalisePoints | lib/api/metric.js:53-65 | a non-array value becomes one point, and every point that is not an array is stamped `[now, p]` |
| Metric.NormalisePointsIdempotent | lib/api/metric.js:53-65 | normalised points are unchanged by a second normalisation at any time |
| Metric.NormaliseEntry | lib/api/metric.js:53-73 | an object gets normalised points, `type` from `type \|\| metric_type`, and no `metric_type`; a primitive is unchanged |
| Metric.NormaliseEntryIdempotent | lib/api/metric.js:67-73 | a second pass changes nothing unless the type came out falsy but defined |
| Metric.NormaliseEntryNotIdempotentOnNullType | lib/api/metric.js:70-73 | a metric with a null `metric_type` and no `type` changes on the second pass |
| Metric.FirstNullish | lib/api/metric.js:53 | the first element whose points cannot be read, or the length |
| Metric.SendAll | lib/api/metric.js:44-82 | the elements before the first nullish one are normalised in place; a nullish element throws a TypeError; otherwise every element is normalised and the array is posted to /series |
| Metric.Series | lib/api/metric.js:128-137 | the series has exactly the keys metric, points, host, tags and type |
| Metric.Send | lib/api/metric.js:122-140 | posts one normalised series to /series with the given callback |
| Metric.SendViaSendAll | lib/api/metric.js:139 | `send` equals `send_all` on a fresh one-element array |
| Metric.SendOmittedExtra | lib/api/metric.js:123-127 | omitting extra equals passing `{}` |
| Metric.Query | lib/api/metric.js:166-175 | GET /query with exactly from, to and query |
| Metric.CliExtra | lib/api/metric.js:202-207 | the extra object from the flags holds only tags, host and type: host and type as given, tags split at commas and present iff the flag is truthy; a truthy non-string tags flag throws |
| Metric.HandleCli | lib/api/metric.js:200-219 | `send` with more than five positionals, `query` with more than six, otherwise the usage message |
| Metric.CliSendTags | lib/api/metric.js:203-204 | the tags flag arrives as the series' tags array and joins back to the flag |
| Metric.SendTags | lib/api/metric.js:127-137 | the one series `send` posts carries the tags of its `extra` object |
| Monitor.PropertyFields | lib/api/monitor.js:44-57 | name, message and tags when truthy, options when object-typed; null properties throw |
| Monitor.Create | lib/api/monitor.js:31-59 | POST /monitor with type, query and the property fields |
| Monitor.Update | lib/api/monitor.js:165-192 | PUT /monitor/{id} with query and the property fields |
| Monitor.CreateOmittedProperties | lib/api/monitor.js:32-35 | omitting properties creates a monitor with only type and query |
| Monitor.CreateUpdateShareFields | lib/api/monitor.js:177-190 | create and update take the same optional fields from the same properties |
| Monitor.WithoutType | lib/api/monitor.js:177-190 | create's fields without `type` are update's fields, since the optional fields never include a `type` |
| Monitor.Get | lib/api/monitor.js:80-94 | GET /monitor/{id}; truthy group states that are not an array throw; otherwise they are joined into the query |
| Monitor.JoinedIf | lib/api/monitor.js:126-134 | a list filter is present exactly when truthy, and then comma-joined |
| Monitor.GetAll | lib/api/monitor.js:118-137 | GET /monitor; null options throw; unjoinable filters throw; the query holds the filters that are set |
| Monitor.MuteFields | lib/api/monitor.js:246-251 | scope and `parseInt(end)` when truthy |
| Monitor.MuteBody | lib/api/monitor.js:243-254 | object-typed options give the fields, and anything else the empty body |
| Monitor.Mute | lib/api/monitor.js:238-256 | POST /monitor/{id}/mute with the mute body |
| Monitor.MuteKeepsNumericEnd | lib/api/monitor.js:249-251 | a numeric end is sent unchanged |
| Monitor.Unmute | lib/api/monitor.js:298-312 | POST /monitor/{id}/unmute with `{scope}` when given, else the empty body |
| Monitor.UnmuteWithoutScopeLikeBareMute | lib/api/monitor.js:308-310 | unmuting without a scope sends the body a mute without options sends |
| Monitor.RemoveRequest | lib/api/monitor.js:212-214 | with a callback: DELETE /api/{version}/monitor/{id}, only the keys, no body; without one: a TypeError |
| Monitor.MuteAllRequest | lib/api/monitor.js:275-277 | with a callback: POST /api/{version}/monitor/mute_all with the empty body; without one: a TypeError |
| Monitor.UnmuteAllRequest | lib/api/monitor.js:331-333 | with a callback: POST /api/{version}/monitor/unmute_all with the empty body; without one: a TypeError |
| Monitor.ListFlag | lib/api/monitor.js:382-383 | a flag is split at commas when truthy, and `[]` otherwise |
| Monitor.HandleCli | lib/api/monitor.js:381-449 | splitting `--states` or `--tags` throws when one is truthy but not a string; otherwise the result is `CliCommand` of the split lists, so each subcommand with enough arguments calls its operation and anything else gets the usage message |
| Monitor.CliCommand | lib/api/monitor.js:388-448 | with the lists split, each subcommand calls its operation: get with the states, getall with the non-empty lists, mute with the scope and end flags, unmute with the scope, unmuteall, muteall, remove by id, create and update with the name and message flags as properties; anything unknown or short gets the usage message |
| Monitor.CliGet | lib/api/monitor.js:388-390 | `get` with the split states builds without throwing |
| Monitor.CliGetAllOptions | lib/api/monitor.js:391-398 | the getall options hold the states and the tags, each exactly when non-empty |
| Monitor.CliGetAll | lib/api/monitor.js:391-399 | `getAll` with those options builds without throwing |
| Monitor.CliMuteOptions | lib/api/monitor.js:401-408 | the mute options hold `--scope` and `--end`, each exactly when truthy |
| Monitor.CliMute | lib/api/monitor.js:400-409 | `mute` with those options builds without throwing |
| Monitor.CliProperties | lib/api/monitor.js:424-430 | the properties hold `--name` and `--message`, each exactly when truthy |
| Monitor.CliCreate | lib/api/monitor.js:421-431 | `create` with object properties builds without throwing |
| Monitor.CliUpdate | lib/api/monitor.js:432-442 | `update` with object properties builds without throwing |
| Monitor.CliGetAlwaysSendsGroupStates | lib/api/monitor.js:382-390 | `monitor get` always sends group_states, empty without `--states`, where a direct `get` sends none |
| Monitor.CliGetSendsStates | lib/api/monitor.js:382-390 | `monitor get --states s` sends `s` itself as group_states: split at the command line, joined back by `get` |
| Monitor.SplitStatesJoined | lib/api/monitor.js:87-92 | `get` with the comma-split parts of a text sends that text as group_states |
| Monitor.GetEmptyStates | lib/api/monitor.js:80-94 | an empty states array is truthy and is sent as the empty group_states string |
| Monitor.GetWithoutStates | lib/api/monitor.js:80-94 | `get` without group states sends no parameters |
| Timeboard.Board | lib/api/timeboard.js:63-72 | title, description and graphs, with template_variables exactly when it is a non-empty array |
| Timeboard.Create | lib/api/timeboard.js:57-75 | POST /dash with the board |
| Timeboard.Update | lib/api/timeboard.js:130-148 | PUT /dash/{id} with the board |
| Timeboard.CreateOmittedTemplateVariables | lib/api/timeboard.js:58-61 | a callback in fourth place sends no template_variables, as `[]` does |
| Timeboard.CreateUpdateSameBody | lib/api/timeboard.js:136-145 | create and update send the same body |
| Timeboard.GetWithoutCallback | lib/api/timeboard.js:211-213 | GET /api/{version}/dash/{id} with no body, built even without a callback |
| Timeboard.GetAllWithoutCallback | lib/api/timeboard.js:189-191 | GET /api/{version}/dash with no body, built even without a callback |
| Timeboard.RemoveWithoutCallback | lib/api/timeboard.js:168-170 | DELETE /api/{version}/dash/{id} with no body, built even without a callback |
| Timeboard.TemplateFlag | lib/api/timeboard.js:254 | `--tmpvars` parsed as JSON when given, `[]` otherwise |
| Timeboard.HandleCli | lib/api/timeboard.js:243-271 | get, getall and remove call their operations; create and update throw exactly when the graphs or the template variables do not parse, and otherwise call `create` or `update` with the title, the description, the parsed graphs and template variables, update with its id through `parseInt`; anything else gets the usage message |
| Timeboard.CliCreateBoard | lib/api/timeboard.js:250-255 | `timeboard create` with graphs that parse and no `--tmpvars` posts title, description and the parsed graphs to /dash, without template variables |
| Timeboard.CliUpdateKeepsNumericId | lib/api/timeboard.js:258 | a command-line update of a numeric id addresses the board a direct update does |
| Screenboard.Options | lib/api/screenboard.js:67-69 | options that are not object-typed become `{}`; null is kept |
| Screenboard.Board | lib/api/screenboard.js:71-87 | title, description and graphs, plus template_variables, width and height exactly when truthy |
| Screenboard.Create | lib/api/screenboard.js:62-90 | POST /screen with the board; null options throw |
| Screenboard.CreateIgnoresNonObjectOptions | lib/api/screenboard.js:67-69 | options that are not object-typed give the body of a call without options |
| Screenboard.CreateDropsFalsySize | lib/api/screenboard.js:82-87 | a zero width or height is not sent |
| Screenboard.RemoveRequest | lib/api/screenboard.js:110-112 | with a callback: DELETE /api/{version}/screen/{id}, no body; without one: a TypeError |
| Screenboard.GetRequest | lib/api/screenboard.js:132-134 | with a callback: GET /api/{version}/screen/{id}, no body; without one: a TypeError |
| Screenboard.GetAllRequest | lib/api/screenboard.js:153-155 | with a callback: GET /api/{version}/screen, no body; without one: a TypeError |
| Screenboard.ShareRequest | lib/api/screenboard.js:175-177 | with a callback: GET /api/{version}/screen/share/{id}, no body; without one: a TypeError |
| Screenboard.SizeOption | lib/api/screenboard.js:228-233 | a size is `parseInt(flag)`, set only when the flag is given |
| Screenboard.Sizes | lib/api/screenboard.js:228-233 | width and height each set only when its flag is given |
| Screenboard.CliOptions | lib/api/screenboard.js:224-233 | tmpvars parsed from JSON, width and height through `parseInt`, each only when given |
| Screenboard.HandleCli | lib/api/screenboard.js:210-239 | each subcommand calls its operation, and a graphs text that does not parse makes the handler throw |
| Screenboard.CliUnreadableWidthDropped | lib/api/screenboard.js:228-230 | an unreadable `--width` becomes NaN, which is falsy, so no width is sent |
| Screenboard.CliCreate | lib/api/screenboard.js:219-235 | a `create` that gets through calls `create` with the parsed graphs and the options built from the flags |
| Screenboard.FalsyWidthDropped | lib/api/screenboard.js:82-84 | options whose width is falsy create a board without a width |
| Tag.GetAll | lib/api/tag.js:23-35 | GET /tags/hosts, with a source key present even when undefined |
| Tag.Get | lib/api/tag.js:63-80 | GET /tags/hosts/{host}, with source and by_source exactly when truthy |
| Tag.GetOmittedOptions | lib/api/tag.js:64-68 | omitted, `{}` and falsy options ask for the same thing |
| Tag.Create | lib/api/tag.js:107-121 | POST /tags/hosts/{host} with `{tags, source}` |
| Tag.Update | lib/api/tag.js:148-161 | PUT /tags/hosts/{host} with `{tags, source}` |
| Tag.CreateUpdateDifferInVerb | lib/api/tag.js:154-160 | create and update differ only in the verb |
| Tag.Remove | lib/api/tag.js:186-198 | DELETE /tags/hosts/{host} with the source in the query |
| Tag.RemoveOmittedSource | lib/api/tag.js:187-190 | an omitted source equals an explicit undefined one |
| Tag.CliGetOptions | lib/api/tag.js:238-244 | source when truthy, and `by_source: true` when the flag is given |
| Tag.HandleCli | lib/api/tag.js:231-257 | each subcommand calls its operation; tags that are not a string throw on `split` |
| Tag.CliRemoveRefused | lib/api/tag.js:252-255 | `tag remove` gets the usage message; only `delete` removes |
| Tag.CliTagsRoundTrip | lib/api/tag.js:247-248 | the tags sent join back to the argument given |
| Embed.CreateArgs | lib/api/embed.js:48-51 | with an undefined callback, a function in the options place is the callback and the options are `{}` |
| Embed.FormFields | lib/api/embed.js:52-57 | graph_json is the graph's JSON text, overridden by every defined option |
| Embed.Create | lib/api/embed.js:47-66 | POST /graph/embed with the encoded form as the body and the form content type |
| Embed.CreateOmittedOptions | lib/api/embed.js:48-51 | omitted options, with or without an undefined callback, equal `{}` |
| Embed.CreateSendsForm | lib/api/embed.js:60-65 | the request is always built, with the form text and the form content type |
| Embed.FormRequest | lib/api/embed.js:60-65 | a form text posted to /graph/embed is sent as is, with the form content type |
| Embed.RevokeRequest | lib/api/embed.js:81-83 | with a callback: GET /api/{version}/graph/embed/{id}/revoke, no body; without one: a TypeError |
| Embed.GetAllRequest | lib/api/embed.js:96-98 | with a callback: GET /api/{version}/graph/embed, no body; without one: a TypeError |
| Embed.GetRequest | lib/api/embed.js:113-115 | with a callback: GET /api/{version}/graph/embed/{id}, no body; without one: a TypeError |
| Embed.GetBuilds | lib/api/embed.js:113-115 | with a function callback, `get` builds GET /api/{version}/graph/embed/{id} carrying only the api and application keys and no body |
| Embed.CliOptions | lib/api/embed.js:149-154 | the four flags, undefined when absent |
| Embed.HandleCli | lib/api/embed.js:146-170 | create, revoke and get need an argument, getall does not, and anything else is refused |
| Embed.CliOmitsMissingFlags | lib/api/embed.js:149-155 | absent flags are not sent, so the form holds only graph_json |
| Embed.FormOfUndefinedOptions | lib/api/embed.js:52-57 | options whose every value is undefined leave the form as graph_json alone |
| Comment.CommentBody | lib/api/comment.js:32-45 | the message, plus handle and related_event_id exactly when truthy in object-typed properties |
| Comment.Create | lib/api/comment.js:26-48 | POST /comments with the comment body |
| Comment.CreateMessageOnly | lib/api/comment.js:27-30 | without object properties only the message is sent |
| Comment.CreateWithoutEvent | lib/api/comment.js:42-44 | a falsy related_event_id is not sent |
| Comment.Update | lib/api/comment.js:70-84 | PUT /comments/{id} with the message, and a handle key that is undefined when the handle is falsy |
| Comment.UpdateFalsyHandle | lib/api/comment.js:76-81 | every falsy or omitted handle updates alike |
| Comment.RemoveRequest | lib/api/comment.js:104-106 | with a callback: DELETE /api/{version}/comments/{id}, no body; without one: a TypeError |
| Comment.EventOption | lib/api/comment.js:139-141 | related_event_id is `parseInt(event)` when the flag is given |
| Comment.CliProperties | lib/api/comment.js:135-141 | handle as given and event through `parseInt` |
| Comment.HandleCli | lib/api/comment.js:132-156 | create, update and remove call their operations, and anything else is refused |
| Comment.CliDropsZeroEvent | lib/api/comment.js:139-141 | an event that reads as 0 or NaN is dropped |
| Comment.FalsyEventProperty | lib/api/comment.js:139-141 | an `--event` that reads as falsy leaves the related event falsy in the properties |
| Comment.CliCreateWithoutEvent | lib/api/comment.js:133-142 | `comment create` with a falsy related event sends none |
| Event.Stamped | lib/api/event.js:50-55 | a non-object becomes `{a, b}`, an object gets both keys and keeps the rest, and null throws |
| Event.CreateCall | lib/api/event.js:45-61 | POST /events with the properties, title and text set |
| Event.CreateOverwritesTitleAndText | lib/api/event.js:54-55 | the arguments win over same-named properties, and other properties are sent as given |
| Event.CreateOmittedProperties | lib/api/event.js:46-49 | omitted properties send `{title, text}` |
| Event.Create | lib/api/event.js:45-61 | the caller's object gains title and text in place, and the request is the one built from its old contents |
| Event.GetRequest | lib/api/event.js:84-86 | with a callback: GET /api/{version}/events/{id}, no body; without one: a TypeError |
| Event.QueryCallAsWritten | lib/api/event.js:120-137 | as written, every call with fewer than four arguments throws a ReferenceError |
| Event.QueryCall | lib/api/event.js:120-137 | corrected, GET /events with start and end written over the parameters |
| Event.QueryShortCallThrows | lib/api/event.js:121 | the documented three-argument call throws as written and sends `{start, end}` corrected |
| Event.QueryAgreesOnFullCalls | lib/api/event.js:121-124 | with four arguments the two agree |
| Event.QueryOmittedParameters | lib/api/event.js:121-124 | omitted parameters equal `{}` |
| Event.Query | lib/api/event.js:120-137 | corrected, as `Event.QueryCall`: the caller's parameters gain start and end in place, and the request is the one built from their old contents |
| Host.EndOption | lib/api/host.js:36-38 | end is `parseInt(options.end)` when truthy |
| Host.MuteBody | lib/api/host.js:30-42 | the hostname, plus end and override when truthy in object options; null options throw |
| Host.Mute | lib/api/host.js:25-44 | POST /host with the mute body |
| Host.MuteEnd | lib/api/host.js:36-38 | a truthy end is sent through `parseInt` |
| Host.TruthyEndSent | lib/api/host.js:36-38 | object options with a truthy end put it, through `parseInt`, in the body |
| Host.MuteKeepsNumericEnd | lib/api/host.js:37 | a numeric end is sent as given |
| Host.Unmute | lib/api/host.js:64-71 | POST /host with `{hostname}` |
| Host.UnmuteIsBareMute | lib/api/host.js:64-71 | unmute sends exactly what mute without options sends |
| Host.EmptyOptionsMute | lib/api/host.js:25-44 | mute with `{}` as the options sends only the hostname |
| Host.CliOptions | lib/api/host.js:97-103 | end through `parseInt`, override as given |
| Host.HandleCli | lib/api/host.js:94-111 | mute and unmute call their operations, and anything else is refused |
| Host.CliMuteEndParsed | lib/api/host.js:98-100 | an end that reads nonzero reaches the body, read twice by `parseInt` |
| Host.CliMuteEnd | lib/api/host.js:98-100 | a nonzero integer end reaches the body unchanged |
| Downtime.Scoped | lib/api/downtime.js:24 | an object gains or replaces its scope, null and undefined throw, and a write to another primitive is lost |
| Downtime.ScheduleCall | lib/api/downtime.js:5-27 | a scope that is not a string throws first; otherwise POST /downtime with the scoped options |
| Downtime.ScheduleOmittedOptions | lib/api/downtime.js:20-23 | omitted options send `{scope}` |
| Downtime.ScheduleScopeWins | lib/api/downtime.js:24-26 | the scope argument wins, and the other options are sent as given |
| Downtime.ScheduleDowntime | lib/api/downtime.js:5-27 | the caller's options gain the scope in place, and the request is the one built from their old contents |
| Downtime.UpdateDowntime | lib/api/downtime.js:29-47 | PUT /downtime/{id} with the options unchanged |
| Downtime.UpdateAddsNoScope | lib/api/downtime.js:41-46 | an update sends its options exactly as given |
| Downtime.ReadAndCancel | lib/api/downtime.js:49-75 | GET and DELETE on /api/{version}/downtime/{id}, with only the keys and no body |
| Downtime.GetAllDowntimes | lib/api/downtime.js:77-100 | GET /downtime, asking for current ones exactly when the flag is truthy |
| Downtime.GetAllOmittedFlag | lib/api/downtime.js:89-92 | a callback alone asks for all downtimes |
| ServiceCheck.Checked | lib/api/service-check.js:37-43 | non-objects become `{}` before the writes, and null throws |
| ServiceCheck.CheckCall | lib/api/service-check.js:31-49 | POST /check_run with the parameters, check, host_name and status set |
| ServiceCheck.CheckSendsParameters | lib/api/service-check.js:41-47 | the arguments win over same-named parameters, and others are sent as given |
| ServiceCheck.CheckOmittedParameters | lib/api/service-check.js:32-35 | omitted parameters send `{check, host_name, status}` |
| ServiceCheck.Check | lib/api/service-check.js:31-49 | the caller's parameters gain the three fields in place, and the request is the one built from their old contents |
| ServiceCheck.TimeOption | lib/api/service-check.js:73-75 | the time is `parseInt(flag)` when truthy |
| ServiceCheck.TagsOption | lib/api/service-check.js:79-81 | the tags are the flag split at commas when truthy, and a non-string throws |
| ServiceCheck.CliParameters | lib/api/service-check.js:72-81 | time, message and tags, each only when given |
| ServiceCheck.HandleCliAsWritten | lib/api/service-check.js:70-86 | as written, more than six positionals post a check whatever the subcommand, with the time under `time` |
| ServiceCheck.HandleCli | lib/api/service-check.js:70-86 | corrected, the time is sent as `timestamp` |
| ServiceCheck.CliTimeSentAsTime | lib/api/service-check.js:73-75 | as written, the payload has `time` and no `timestamp` |
| ServiceCheck.CliTimeIsTimestamp | lib/api/service-check.js:73-75 | corrected, the payload's timestamp is the parsed time |
| ServiceCheck.CliStatus | lib/api/service-check.js:82 | the status is `parseInt` of its argument, and the subcommand is not looked at |
| ServiceCheck.CliSendsParameters | lib/api/service-check.js:71-82 | the body is the parameters built from the flags, with check, host_name and status written over them |
| ServiceCheck.OverridesKeep | lib/api/service-check.js:41-43 | writing check, host_name and status leaves every other parameter as it was |
| ServiceCheck.OverridesSet | lib/api/service-check.js:41-43 | after the writes, check, host_name and status hold the three arguments |
| ServiceCheck.SubcommandIgnored | lib/api/service-check.js:70-86 | the handler gives the same result whatever the subcommand |
| LegacyServiceCheck.Timestamp | lib/api/service_check.js:34 | a truthy timestamp goes through `parseInt`; otherwise the current second |
| LegacyServiceCheck.CheckBody | lib/api/service_check.js:30-42 | check, status, host_name and timestamp always; message and tags exactly when truthy; no other keys |
| LegacyServiceCheck.ServiceCheck | lib/api/service_check.js:8-45 | an unknown status throws, and null options throw; otherwise POST /check_run with check, status, host_name and timestamp, and message and tags when truthy |
| LegacyServiceCheck.KnownLevelsAccepted | lib/api/service_check.js:26-28 | each of the four levels is accepted |
| LegacyServiceCheck.TextStatusRefused | lib/api/service_check.js:26-28 | a textual status is refused |
| LegacyServiceCheck.StampedWithNow | lib/api/service_check.js:34 | without a timestamp the check is stamped with the current second |
| LegacyServiceCheck.GivenTimestampKept | lib/api/service_check.js:34 | a nonzero integer timestamp is kept |
| LegacyServiceCheck.TimestampSent | lib/api/service_check.js:30-35 | object options send their timestamp option, or the current second when it is falsy |
| LegacyServiceCheck.OmittedOptionsThrow | lib/api/service_check.js:34 | with neither options nor callback, reading the timestamp throws |
| Graph.SnapshotQuery | lib/api/graph.js:35-44 | metric_query, start and end always, and event_query exactly when truthy |
| Graph.Snapshot | lib/api/graph.js:30-46 | GET /graph/snapshot with the query, both bounds through `parseInt`, and the event query exactly when truthy, a function in its place being the callback |
| Graph.SnapshotOfFull | lib/api/graph.js:30-47 | a five-argument call is GET /graph/snapshot with both bounds through `parseInt` |
| Graph.SnapshotWithoutEvents | lib/api/graph.js:31-34 | an omitted or falsy event query sends no event_query |
| Graph.SnapshotKeepsIntegerBounds | lib/api/graph.js:38-39 | integer bounds are sent unchanged |
| Graph.HandleCliAsWritten | lib/api/graph.js:64-77 | as written, `snapshot` is dispatched with more than five positionals |
| Graph.HandleCli | lib/api/graph.js:65 | corrected, `snapshot` needs more than six positionals |
| Graph.CliMissingToSent | lib/api/graph.js:65-68 | with six positionals the written handler sends end NaN; the corrected one refuses |
| Graph.SnapshotEndNaN | lib/api/graph.js:35-40 | a bound that reads as NaN is sent as NaN |
| Graph.CliBoundsParsedOnce | lib/api/graph.js:67-68 | the twice-parsed bounds equal the once-parsed ones |
| Validation.FirstFalsy | lib/api/screen.js:25-39 | the properties before the result are truthy, and the one at it is falsy |
| Validation.ItemCheck | lib/api/screen.js:24-40 | an item passes exactly when complete; a nullish item throws a TypeError; otherwise the first falsy property is reported missing |
| Validation.ArrayCheck | lib/api/screen.js:24 | the elements pass exactly when all are complete |
| Validation.FirstIncompleteReported | lib/api/screen.js:24-40 | the error is that of the first incomplete element |
| Validation.CollectionCheck | lib/api/screen.js:24-40 | the items pass exactly when all are complete; for an object the error is that of some incomplete value |
| Screen.Validate | lib/api/screen.js:3-41 | a board passes exactly when well shaped; each failing check, taken in the source's order (object, title, width, height, widgets type, then each widget), gives its own message |
| Screen.CreateScreenboard | lib/api/screen.js:82-83 | POST /screen with the board exactly when it passes, else the validator's exception |
| Screen.UpdateScreenboard | lib/api/screen.js:99-100 | PUT /screen/{id} exactly when the board passes |
| Screen.CreateUpdateAgree | lib/api/screen.js:99-100 | create and update accept the same boards with the same exceptions |
| Screen.MinimalBoardAccepted | lib/api/screen.js:3-41 | a title and no widgets pass |
| Screen.FirstBadWidgetReported | lib/api/screen.js:24-40 | the exception names the first incomplete widget and its first falsy property |
| Screen.ZeroXRejected | lib/api/screen.js:34-36 | a widget at x = 0 is refused as missing its x |
| Screen.OneWidgetBoard | lib/api/screen.js:24-40 | a board whose one widget is incomplete is refused with that widget's error, under index 0 |
| Screen.ZeroXMissing | lib/api/screen.js:34-36 | a widget with truthy type, width and height and x = 0 is reported as missing its x |
| Screen.ReadsAndDeletes | lib/api/screen.js:45-114 | GET /screen, GET and DELETE /screen/{id} under /api/{version}, with only the keys and no body |
| Dash.CheckRest | lib/api/dash.js:12-27 | the checks after the title pass exactly when the description is a string and the graphs are complete |
| Dash.ValidateAsWritten | lib/api/dash.js:3-28 | as written, a board passes only if its title loosely equals the text "string" |
| Dash.Validate | lib/api/dash.js:3-28 | corrected, a board passes exactly when well shaped |
| Dash.RealTitlesRefused | lib/api/dash.js:8-10 | every well-shaped board with a real title is refused as written and accepted corrected |
| Dash.ReadingsAgreeOnTheWord | lib/api/dash.js:8-10 | the two readings agree when the title is "string" |
| Dash.CreateDashboard | lib/api/dash.js:69-70 | POST /dash with the board exactly when it passes |
| Dash.UpdateAsWritten | lib/api/dash.js:86-87 | as written, update never sends: a passing board reaches an undeclared name |
| Dash.UpdateDashboard | lib/api/dash.js:86-87 | corrected, PUT /dash/{id} exactly when the board passes |
| Dash.UpdateMatchesCreate | lib/api/dash.js:86-87 | corrected update and create accept the same boards |
| Dash.MinimalDashboardAccepted | lib/api/dash.js:3-28 | a title, a description and no graphs pass |
| Dash.FirstBadGraphReported | lib/api/dash.js:20-27 | the exception names the first incomplete graph |
| Dash.ReadsAndDeletes | lib/api/dash.js:32-101 | GET /dash, GET and DELETE /dash/{id} under /api/{version}, with only the keys and no body |

## Left out

- The HTTPS exchange itself is not modelled: sockets, events and streaming. So is the 30-second `setTimeout` abort of `lib/client.js:120-122`. The model stops at the request handed to `https.request` and at the response events, given as a parameter.
- Metric.SendAll: each metric is normalised as a value, so an array that holds the same object twice is not modelled as the source runs it. There the second pass sees the first pass's writes: with `m = {metric_type: null}`, `[m, m]` leaves `m.type` undefined, which `json.stringify` drops, where the model sends `type: null` for both. `Metric.NormaliseEntryNotIdempotentOnNullType` shows the two passes differ on that entry; for arrays of distinct objects the model and the source agree.
- `JSON.stringify`, `json.parse` and `querystring.stringify` are not defined here. They are the fields of an uninterpreted `Http.Codec` passed in, and only `JSON.stringify`'s undefined cases are fixed.
- `util.format` and template literals are modelled as string concatenation with `String(v)` (`Js.ToString`).
- Numbers are integers. Floating point, and `parseInt` of a fraction, are not modelled.
- `Js.ToString` of a function is not modelled.
- JavaScript object key order is not modelled. For widgets or graphs given as an object rather than an array, the validators report some incomplete value, not necessarily the first in insertion order.
- Named properties set on arrays are not modelled, because a write to an array is lost in the model.
- `lib/constants.js` is not part of this model. The service-check statuses are taken as the four levels 0 to 3 that `lib/index.js:80-83` exports.
- The clock is a parameter, `nowMs`/`ms`, and `process.env` is a map parameter.
- Module wiring is not modelled: `require`, the `api` object at `lib/index.js:55` and `61-63`, and the prototype mixin of the legacy methods. Each operation takes its client explicitly instead.
- `getUsage` and `getHelp` of every module print help text only and are not modelled.
- The rest of the repository is outside this model: `lib/api/alert.js`, `snapshot.js`, `serviceCheck.js`, `search.js`, `infrastructure.js`, `user.js`, `lib/DashApi.js` and `docs/create.js`.
- Http.ByteLength, Http.UnitsAtMostBytes and HttpClient.RequestAsWritten: strings are sequences of Unicode scalar values, so a lone UTF-16 surrogate cannot be written down. For one, `Buffer.byteLength` counts 3 bytes (the replacement character) against 1 unit of `.length`; the model does not cover that case.
- Text.ToUpper upper-cases the ASCII letters only. `toUpperCase()` on other letters is not modelled; the verbs it is applied to are ASCII.
- Screen.Validate, Dash.Validate and the functions that use them are ghost, because the object case picks an incomplete value by `:|`.
- The remaining three-argument forwarders carry no contract of their own; their endpoint lemmas state the requests they lead to. They are Embed.Revoke and its siblings, Screen.GetScreenboard, Dash.GetDashboard, Screenboard.Remove, Screenboard.Get, Screenboard.GetAll, Screenboard.Share, Downtime.GetDowntime and Downtime.CancelDowntime (stated by Downtime.ReadAndCancel). Tag.HostPath and Graph.CliSnapshot only build a path or an argument list for the members that use them.

## Findings

| source | as written | input that shows it | evidently intended | confidence | as-written member | corrected member |
|---|---|---|---|---|---|---|
| lib/http_client.js:36-39 | the guard after reading `app_key` tests `api_key` again | `api_key` given, no `app_key` in options or environment: no exception | throw "app_key is not set" when the app key is missing | not executed | HttpClient.NewAsWritten, HttpClient.AppKeyGuardIneffective | HttpClient.New |
| lib/http_client.js:101 | Content-Length is `body.length`, in UTF-16 units | body "é": header 1, two bytes written | the UTF-8 byte count, as `Buffer.byteLength` in lib/client.js:84 | not executed | HttpClient.RequestAsWritten, HttpClient.ContentLengthShortForAccent | HttpClient.Request |
| lib/api/event.js:121 | the arity check reads the undeclared `argument` | `query(start, end, callback)`: ReferenceError | test `arguments[2]` | not executed | Event.QueryCallAsWritten, Event.QueryShortCallThrows | Event.QueryCall, Event.Query |
| lib/api/service-check.js:73-75 | `--time` is stored as `parameters.time` | seven positionals and `--time 100`: the payload has `time` and no `timestamp` | the check's `timestamp`, as the help text says | not executed | ServiceCheck.HandleCliAsWritten, ServiceCheck.CliTimeSentAsTime | ServiceCheck.HandleCli |
| lib/api/graph.js:65 | `snapshot` is accepted with more than five positionals although `to` is `args._[6]` | six positionals: sent with `end` NaN | require more than six, as the usage line does | not executed | Graph.HandleCliAsWritten, Graph.CliMissingToSent | Graph.HandleCli |
| lib/api/dash.js:8 | the title is compared with the text "string" | a dashboard titled "My board": refused | test `typeof title != 'string'` | not executed | Dash.ValidateAsWritten, Dash.RealTitlesRefused | Dash.Validate |
| lib/api/dash.js:87 | the body names the undeclared `dashbboard` | any board passing the checks: ReferenceError | send `dashboard` | not executed | Dash.UpdateAsWritten | Dash.UpdateDashboard |
