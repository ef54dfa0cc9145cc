# sand-riak: the call wrapper and the client registry, in Dafny

This project models the core of `sand-riak`, a Sand framework grain that sits
in front of a Riak store client.

- **lib/Client.js** wraps each of the 33 store-client methods in a delegated
  method that does three things:
  - When the profiler is enabled, it builds a profiler label from the call's
    first argument. The label is `riak <fn> types/… bucket/… search/… query/…`.
    In the query, every `word:word` token becomes `word:*`, and the label is
    trimmed.
  - It invokes the store client with a node-style callback, `returnResult`.
  - It turns the callback's `(err, response, data)` into one promise outcome.
    On the way it stops the profiler span and logs any failure.

  `stop()` marks the client disconnected. `checkIsConnected()` throws when the
  client is not marked connected.
- **lib/riak.js** is the grain itself. It keeps one store client per bucket,
  built on first use from the grain's configuration merged over
  `{bucket: b}`. Its `get`, `save` and `delete` peel the bucket off the
  arguments and call the bucket's client method `get`, `put` or `del`. The
  call is made directly when the last remaining argument is a callback, and
  through a promise adapter otherwise.

Modules:

- `Js` (js.dfy) is the slice of JavaScript values that the code relies on:
  - truthiness;
  - `String(v)` and template-literal conversion. An object or function
    carries its own string form, which keeps that conversion abstract;
  - property reads;
  - `typeof v === 'function'`.
- `Wildcard` (wildcard.dfy) models the global regular-expression replacement
  `q.replace(/(\w+):\w+/ig, '$1:*')` as a left-to-right scanner. It proves
  what the scanner guarantees.
- `Label` (label.dfy) covers the following:
  - `String.prototype.trim`;
  - the label builder;
  - reading the label's fields from `args[0]`, including both TypeErrors the
    builder can throw;
  - a segment-level reference description of the label.
- `Client` (client.dfy) models the following:
  - the delegated operations;
  - the effects of a call as an event trace: span start, store-client
    invocation, span stop, log, resolve and reject;
  - the promise's first-settle-wins rule;
  - class `Call`, the per-call record that `returnResult` updates;
  - class `Client`, with `_isConnected`, `stop` and `checkIsConnected`.
- `Registry` (registry.dfy) models the `Riak` grain as a class over a
  `map<string, Handle>` from property key to client. It also covers the
  configuration merge, the in-place splice of `arguments`, and the
  callback-versus-promise dispatch.

## Model

| member | source | states |
|---|---|---|
| Js.Truthy | lib/Client.js:93-116 | JavaScript's `if (x)` test on the values the model has; `Js.FalsyValues` states which ones fail it |
| Js.FalsyValues | lib/Client.js:93-116 | the falsy values are exactly `undefined`, `null`, `false`, `0` and the empty string; every object and function is truthy |
| Js.NatToText | lib/Client.js:94-120 | the decimal text of a number is nonempty and made of digits only |
| Js.NatToTextRoundTrip | lib/Client.js:94-120 | the decimal text reads back as the number and has no leading zero, so it is the canonical form `String(n)` gives |
| Js.ToText | lib/Client.js:94-120 | `${v}` and `new Error(err).message`: `undefined`, `null`, `true`/`false`, a number's decimal text with a `-` for negatives, a string as itself, and for an object or function the text it carries. It carries no contract of its own; `Js.NatToTextRoundTrip` states the number case |
| Js.Arg | lib/Client.js:93-119 | `args[i]` is the i-th argument when there is one and `undefined` past the end |
| Js.Prop | lib/Client.js:93-105 | reading one of the label fields of `args[0]` yields the own property when present and `undefined` otherwise; it is only defined on non-nullish values |
| Wildcard.RunEnd | lib/Client.js:106 | the maximal run of `\w` characters from a position: every character in it is a word character and the next one is not |
| Wildcard.Step | lib/Client.js:106 | one scanner step (a copied non-word character, a `word:word` match rewritten to `word:*`, or an unmatched word run) advances at least one position and never past the end of the query |
| Wildcard.StepNoLonger | lib/Client.js:106 | a step emits no more characters than it consumes: a matched value of at least one character becomes the single `*` |
| Wildcard.WildcardFrom | lib/Client.js:106 | the global replacement resumed at a position: steps chained until the end of the query. It carries no contract of its own; `Wildcard.WildcardFromNoLonger`, `Wildcard.NoTokenFrom` and `Wildcard.WildcardFromSplit` state its properties |
| Wildcard.WildcardFromNoLonger | lib/Client.js:106 | the scan from a position emits no more characters than remain from there |
| Wildcard.Wildcard | lib/Client.js:106 | `q.replace(/(\w+):\w+/ig, '$1:*')` is never longer than the query; `Wildcard.WildcardCuts` states exactly what it changes |
| Wildcard.WildcardCuts | lib/Client.js:106 | the rewrite is the query with the value of each match replaced by `*` and everything else, keys included, copied in place. The matches run left to right; each value is the maximal word run right after a colon whose left neighbour is a word character, and each key begins after the previous value, since the scan resumes there |
| Wildcard.WildcardFromCuts | lib/Client.js:106 | the same, for the scan resumed at any position: only values of matches that start there or later are cut |
| Wildcard.MatchStep | lib/Client.js:106 | a matching step copies the key and the colon, emits `*` for the value run, and resumes behind it |
| Wildcard.MatchCut | lib/Client.js:106 | a matching step adds the cut of its value in front of the cuts of the rest of the scan |
| Wildcard.CopiedStep | lib/Client.js:106 | a step that copies its text adds no cut |
| Wildcard.ApplyCutsBack | lib/Client.js:106 | text before the first cut is copied unchanged |
| Wildcard.NoTokenLeft | lib/Client.js:106 | after the replacement no `word:word` token is left: every `:` in the result lacks a word character on one side |
| Wildcard.UnchangedIffNoToken | lib/Client.js:106 | the replacement leaves a query unchanged if and only if it holds no `word:word` token |
| Wildcard.Idempotent | lib/Client.js:106 | applying the replacement twice gives the same label as applying it once |
| Wildcard.SplitAtSeparator | lib/Client.js:106 | the replacement works token by token: around any separator other than `:` and word characters, it acts on each side independently |
| Wildcard.KeyValue | lib/Client.js:106 | a single `key:value` query of word characters becomes `key:*` |
| Wildcard.ResumeAfterMatch | lib/Client.js:106 | the global scan resumes after the consumed value, so `key:v:w` of word runs becomes `key:*:w`: the second colon starts no match |
| Wildcard.SkeletonKept | lib/Client.js:106 | the replacement changes only word characters and `*`: all other characters (spaces, quotes, operators, `:`) survive in order |
| Wildcard.NoTokenFrom | lib/Client.js:106 | the scan from any position never produces a `word:word` token |
| Wildcard.WildcardFromSplit | lib/Client.js:106 | a scan that reaches a separator (neither `:` nor a word character) is the scan up to it, then the separator, then the scan after it |
| Label.NotSpace | lib/Client.js:109 | no printable ASCII character other than the space is in the `String.prototype.trim` whitespace set |
| Label.TrimStart | lib/Client.js:109 | the result is a suffix of the input that does not start with whitespace |
| Label.TrimStartCutsSpace | lib/Client.js:109 | what `TrimStart` cuts off is whitespace only |
| Label.TrimEnd | lib/Client.js:109 | the result is a prefix of the input that does not end in whitespace |
| Label.TrimEndCutsSpace | lib/Client.js:109 | what `TrimEnd` cuts off is whitespace only |
| Label.Trim | lib/Client.js:109 | the trimmed text is no longer than the input and has no whitespace at either end |
| Label.TrimCutsOnlySpace | lib/Client.js:109 | the trimmed text is a slice of the input, and only whitespace is cut off on either side |
| Label.TrimEndKeepsPrefix | lib/Client.js:92-109 | trimming a label whose non-space prefix is known keeps that prefix |
| Label.TrimAfterHead | lib/Client.js:92-109 | a label whose head neither starts nor ends with whitespace is only trimmed at its tail, and keeps its head |
| Label.Grow | lib/Client.js:93-107 | one `if (args[0].field) { req += … }` step: the prefix, the field's text and the separator are appended exactly when the field is present. It carries no contract of its own; `Label.GrowExtends` states its property |
| Label.GrowExtends | lib/Client.js:93-107 | each `req += …` step only appends to the label |
| Label.RawLabel | lib/Client.js:92-107 | the untrimmed label, grown field by field in the order types, bucket, search, query. It carries no contract of its own; `Label.RawLabelStarts` and `Label.RawLabelIsRendered` state its properties |
| Label.RawLabelStarts | lib/Client.js:92-107 | the untrimmed label starts with `riak <fn> `, a trailing space included |
| Label.BuildLabel | lib/Client.js:109 | the label handed to the profiler is no longer than the raw label and has no white space at either end |
| Label.LabelShape | lib/Client.js:92-109 | for a method name that does not end in whitespace, the label starts with `riak <fn>`, has no whitespace at either end, and is the raw label with only its tail trimmed |
| Label.TrimmedLabel | lib/Client.js:92-109 | trimming any text that starts with `riak <fn> ` cuts only its tail, keeps `riak <fn>` and leaves no white space at either end |
| Label.SegmentsPresentInOrder | lib/Client.js:93-107 | a types/bucket/search/query segment is present exactly when its field is truthy; it carries that field's text, with the query wildcarded; and segments come in the fixed order types, bucket, search, query |
| Label.SegmentPresent | lib/Client.js:93-107 | a segment of a given kind is present exactly when its field is truthy |
| Label.SegmentTexts | lib/Client.js:93-107 | every segment carries its own field's text, with the query wildcarded |
| Label.SegmentsOrdered | lib/Client.js:93-107 | segments come in the fixed order types, bucket, search, query |
| Label.RawLabelIsRendered | lib/Client.js:92-107 | the untrimmed label is `riak <fn> ` followed by the rendering of those segments |
| Label.TruthyText | lib/Client.js:93-105 | a field contributes text exactly when it is truthy, and then its string form |
| Label.FieldsOf | lib/Client.js:93-106 | reading the fields of a nullish `args[0]` throws on `bucketType`. Otherwise it throws exactly when `q` is truthy but not a string, a TypeError that `replace` is not a function. On success each of `bucketType`, `bucket` and `indexName` is present exactly when that property is truthy, and then carries its string form; `q` is present exactly when truthy, and is then the string itself |
| Label.ProfileLabel | lib/Client.js:90-109 | building the label throws exactly when `args[0]` is missing, undefined or null, or when its `q` is truthy but not a string; otherwise the label is the trimmed label of the fields read from `args[0]` |
| Label.FullLabel | lib/Client.js:92-109 | with all four fields and a `key:value` query, the label is `riak <fn> types/<t> bucket/<b> search/<i> query/<key>:*` |
| Label.SearchLabelExample | lib/Client.js:90-109 | `search` with `{bucketType: "t", bucket: "b", indexName: "i", q: "field:value"}` is labelled `riak search types/t bucket/b search/i query/field:*` |
| Client.Name | lib/Client.js:30-62 | the store-client method name each of the 33 delegated operations is installed under. It carries no contract of its own; `Client.NameEndsVisibly` states its property |
| Client.LabelNamesOperation | lib/Client.js:30-62 | the label of every delegated method begins with `riak ` and that method's name |
| Client.NameEndsVisibly | lib/Client.js:30-62 | every delegated method name is nonempty and ends in a printable non-space character, so trimming never eats into it |
| Client.CountConcat | lib/Client.js:112-128 | event counts add up over concatenated traces |
| Client.Settlement | lib/Client.js:112-125 | a promise's outcome is a resolve or reject taken from the trace, and it exists exactly when the trace settles at all |
| Client.SettledStaysSettled | lib/Client.js:121-124 | once the promise has settled, nothing that happens later changes its outcome: it settles at most once |
| Client.SettlementAfterUnsettled | lib/Client.js:112-127 | until a resolve or reject happens, the outcome is decided by what follows |
| Client.RequestDescriptor | lib/Client.js:119 | the descriptor `${fn}: ${args[0]}` is the method name, a colon, a space and the string form of the first argument (`undefined` when there is none), nothing more |
| Client.ReturnResultEffects | lib/Client.js:114-125 | one run of `returnResult` stops the span first when there is one; a truthy error then logs `<message> <fn>:` with the arguments and rejects with the wrapped error, its data and its descriptor, as its last effect; a falsy error resolves with the response, as its last effect |
| Client.EffectCounts | lib/Client.js:114-125 | one run of `returnResult` stops the span once when there is one, logs once for a truthy error and never otherwise, and settles once |
| Client.CountsOfEffects | lib/Client.js:114-125 | any effect list shaped like one run of `returnResult` has one stop when spanned, one log when failed, and one settle |
| Client.ReturnResultSettlesOnce | lib/Client.js:114-125 | one run of `returnResult` settles exactly once, as its last effect; it stops the span exactly once and first when there is a span, and starts nothing |
| Client.EffectsSettlement | lib/Client.js:114-125 | the outcome of one run of `returnResult` is its last effect |
| Client.ErrorRejects | lib/Client.js:116-121 | a truthy error rejects, never resolves, and logs exactly once, just before the rejection. The log message is `<message> <fn>:` with the original arguments. The error carries `new Error(err)`'s message, the callback's data and the descriptor `<fn>: <args[0]>` |
| Client.SuccessResolves | lib/Client.js:116-124 | a falsy error resolves with the response, never rejects and logs nothing |
| Client.SecondCallbackDoesNotResettle | lib/Client.js:114-125 | a second callback leaves the outcome as it was but stops the span once more |
| Client.CallTrace | lib/Client.js:109-128 | a started call's trace is the span start when there is a label, then the single invocation of the store client, then the effects of `returnResult` exactly when the store client calls back, and nothing else |
| Client.CallReturn | lib/Client.js:112-128 | a started call never throws to its caller. A store client that throws hands what it threw to the rejection handler. Otherwise the call is pending exactly while no resolve or reject happened, fulfils with the first resolve's value, and hands the first reject's wrapped error to the handler |
| Client.SpanBalanced | lib/Client.js:87-129 | each call starts at most one span (exactly when the profiler is on) and invokes the store client exactly once. When the store client calls back, the span is stopped as many times as it was started and the call settles once, last. When it throws or never calls back, `returnResult` never runs, so the trace has no stop, log, resolve or reject event; a throw still rejects the promise, as `Client.CallReturn` states |
| Client.CallOutcome | lib/Client.js:112-128 | a call fulfils with the response for a falsy error; for a truthy one, the wrapped error reaches the rejection handler |
| Client.FetchValueSucceeds | lib/Client.js:112-128 | `fetchValue({bucket: "users", key: "42"})` called back with `(null, {data: "x"})` fulfils with `{data: "x"}` |
| Client.FetchValueNotFound | lib/Client.js:112-128 | the same fetch called back with `("not found", null, {reason: "missing"})` rejects with message `not found`, data `{reason: "missing"}` and descriptor `fetchValue: [object Object]` |
| Client.Call.constructor | lib/Client.js:109-127 | a new call record has started its span when there is a label, then invoked the store client |
| Client.Call.ReturnResult | lib/Client.js:114-125 | appends the effects of one `returnResult` run to the call's trace; an outcome already reached is kept |
| Client.Client.constructor | lib/Client.js:12-27 | a new client never sets `_isConnected`, so it starts out undefined |
| Client.Client.Stop | lib/Client.js:68-71 | from any state, `_isConnected` becomes false and the store client is stopped one more time |
| Client.Client.CheckIsConnected | lib/Client.js:136-140 | throws `Could not connect to riak server` if and only if `_isConnected` is falsy |
| Client.ConnectedCheck | lib/Client.js:136-140 | the check fails exactly for a falsy `_isConnected` |
| Client.CheckNeverPasses | lib/Client.js:136-140 | `_isConnected` is only ever undefined or false, so the connection check can never pass |
| Client.Client.Delegate | lib/Client.js:84-129 | with the profiler on, a label that cannot be built throws synchronously and no call is made. Otherwise the call's trace is that of a span (when the profiler is on) labelled by the builder, a store-client invocation and the callback's effects. The caller's result is the promise's outcome through `.catch(sand.error)` |
| Registry.Handle.constructor | lib/riak.js:36 | a store client keeps the configuration it was built with |
| Registry.OwnProps | lib/riak.js:31-37 | the own properties `_.merge` copies from the grain configuration: none unless it is an object; a key held reads as its value, any other key as `undefined` |
| Registry.MergeConfig | lib/riak.js:31-37 | the merged configuration has exactly the grain configuration's keys plus `bucket`, and every key other than `bucket` carries the grain's value |
| Registry.ConfigBucket | lib/riak.js:32-34 | the grain's own `bucket` wins over the bucket asked for, unless it is missing or undefined |
| Registry.BareConfig | lib/riak.js:32-34 | without a grain configuration the client is configured with the bucket alone |
| Registry.StyleOf | lib/riak.js:57-61 | callback style exactly when the last forwarded argument is a function; no arguments means promise style |
| Registry.Arguments.Splice | lib/riak.js:54 | `splice(1)` removes and returns everything after the first argument, in order, and leaves the first in place |
| Registry.Rest | lib/riak.js:54 | the forwarded arguments are the arguments after the bucket, unchanged and in order |
| Registry.LookupAsWritten | lib/riak.js:24 | `this.clients[key]` comes up empty exactly for keys that are neither cached nor inherited from the object prototype |
| Registry.ConstructorBucketAsWritten | lib/riak.js:20-28 | on a fresh grain, a bucket named `constructor` finds the inherited built-in |
| Registry.Riak.constructor | lib/riak.js:15-21 | a new grain has no clients |
| Registry.Riak.NewClient | lib/riak.js:31-37 | builds a fresh client configured with the merged configuration |
| Registry.Riak.GetClient | lib/riak.js:23-29 | afterwards the bucket's key is cached and its client is returned. A cached client is returned again with nothing changed, so a second call is idempotent. Otherwise exactly one client is built, for that key only, and every other entry is untouched |
| Registry.Riak.GetClientAsWritten | lib/riak.js:23-29 | as written: a key found in the cache or on the object prototype is returned as found, with nothing built; any other key gets one fresh client |
| Registry.Riak.WrapCallInPromise | lib/riak.js:52-62 | the first argument names the bucket. The rest are forwarded unchanged and in order to that bucket's client under the given method name, in the style `StyleOf` picks. The `arguments` object keeps only the bucket, and the registry changes exactly as `GetClient` says; this rests on the corrected `GetClient` (see Findings and Left out) |
| Registry.Riak.Get | lib/riak.js:39-41 | `wrapCallInPromise('get', arguments)`: the arguments after the bucket are forwarded unchanged and in order to the bucket's client as `get`, in the style `StyleOf` picks; `arguments` keeps only the bucket; the bucket's client is cached, reused when it was, and built fresh for that key alone when it was not. This rests on the corrected `GetClient` |
| Registry.Riak.Save | lib/riak.js:43-45 | `wrapCallInPromise('put', arguments)`: the arguments after the bucket are forwarded unchanged and in order to the bucket's client as `put`, in the style `StyleOf` picks; `arguments` keeps only the bucket; the bucket's client is cached, reused when it was, and built fresh for that key alone when it was not. This rests on the corrected `GetClient` |
| Registry.Riak.Delete | lib/riak.js:47-49 | `wrapCallInPromise('del', arguments)`: the arguments after the bucket are forwarded unchanged and in order to the bucket's client as `del`, in the style `StyleOf` picks; `arguments` keeps only the bucket; the bucket's client is cached, reused when it was, and built fresh for that key alone when it was not. This rests on the corrected `GetClient` |

## Left out

- The store client (`basho-riak-client` in lib/Client.js, `@sazze/riak` in
  lib/riak.js) is foreign code. What it does with a call is a parameter of
  `Client.Client.Delegate`: it calls back once, throws, or never calls back.
  In `Registry`, the dispatch record names the client, the method and the
  arguments. Nothing about what those methods return is modelled.
- The `Client` constructor's cluster setup (lib/Client.js:13-27) is left out.
  It covers `_.defaults` over `config.cluster`, node building, and the
  connect callback that throws on error. All of it happens inside the foreign
  library. Only the fact that `_isConnected` stays undefined is kept.
- The 33 `delegate(this, fn)` calls are modelled by the `Op` datatype. One
  `Delegate` method stands for each installed method. The installation of
  functions as properties at run time is not modelled.
- The Sand framework globals are inputs or are left out:
  - `sand.profiler` is the flag `profilerEnabled`;
  - the span's timing happens inside the profiler;
  - `sand.riak.error` is recorded as a log event;
  - `sand.error`'s own return value, which becomes the returned promise's
    value after a rejection, is not modelled.
- `SandGrain` registration, `defaultConfig`, the package version and
  `this.name` (lib/riak.js:15-19) are framework glue.
- Asynchrony and timing: a promise is modelled by its first resolve or
  reject. Scheduling of reactions, and interleaving between calls, are left
  out.
- Client.Client.Delegate: a store client that throws synchronously inside the
  promise executor rejects the promise. The handler then sees the thrown
  value, and the span is never stopped. The model states this as it is
  written, with no stop on that path.
- Client.SecondCallbackDoesNotResettle: the span is stopped exactly once only
  when the store client calls back exactly once. A second callback stops it
  again and logs again, although the outcome does not change.
- Client.Call.ReturnResult: `p && p.stop()` skips the stop when the profiler
  hands back a falsy span. The model treats the span as present whenever a
  label was built, and the profiler's return value is not modelled.
- Client.ReturnResultEffects: `resolve(response)` with a thenable response
  adopts that thenable's state. The model resolves with the response as a
  plain value.
- Js.ToText: `String(n)` switches to exponent form for integers of magnitude
  `1e21` and above. The model's integer text is the plain decimal form.
- Registry.Riak.WrapCallInPromise: as written, a bucket whose key is inherited
  from `Object.prototype` (such as `constructor`) makes `getClient` return a
  built-in, and `client[fn].apply` or `client[fn].bind` then throws a
  TypeError (lib/riak.js:57-61). `WrapCallInPromise`, `Get`, `Save` and
  `Delete` are stated over the corrected `GetClient`; the as-written lookup is
  `Registry.Riak.GetClientAsWritten`, see Findings.
- Errors building the label (a missing or nullish `args[0]`, or a truthy
  non-string `q`) throw synchronously to the caller, before any promise
  exists. They are not turned into a rejection. An object `q` with a `replace`
  method, own or inherited, would call it: a `String` object such as
  `new String("a:b")` gives `a:*`. The model treats every truthy
  non-string `q` as a TypeError.
- `new Error(err)` for an object `err` takes `String(err)` as its message.
  For objects and functions that text is kept abstract, as the `text` or
  `source` each value carries.
- Numbers are integers: floating point, `NaN` and `-0` are not modelled.
- Symbols as bucket names are not modelled. Property keys are `String(v)`
  of the bucket.
- Registry.MergeConfig: models `_.merge` one level deep. Nested objects under
  the same key are replaced, not merged recursively. A string configuration
  would contribute its characters as indexed keys; the model treats it as
  contributing nothing.
- lib/riak.js uses `_` without importing it (line 32), so `newClient` throws a
  ReferenceError unless a global `_` exists. The model gives the intended
  merge.
- The connection gate is not modelled: nothing in lib/Client.js calls
  `checkIsConnected`. The delegated methods invoke the store client without
  any readiness check or wait, and the model follows the code.
  `Client.CheckNeverPasses` shows that such a gate would refuse every call.

## Findings

| source | as written | input that shows it | evidently intended | confidence | as-written member | corrected member |
|---|---|---|---|---|---|---|
| lib/riak.js:20-28 | `this.clients = {}` is a plain object, so `this.clients[bucket]` also finds members inherited from `Object.prototype` | `getClient("constructor")` on a fresh grain returns the built-in `Object` function and builds no client (likewise `toString`, `valueOf`, `hasOwnProperty`, …) | a lookup of the cache's own entries, so that every bucket gets its own client | not executed | Registry.ConstructorBucketAsWritten | Registry.Riak.GetClient |
