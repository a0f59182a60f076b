# fetch-please in Dafny

A model of `FetchPlease`, a small HTTP client built on `XMLHttpRequest`,
together with its `assign` merge helper and proofs about both.

The client is a sequential state machine:

- it holds its settings (`path`, `timeout`, `headers`, the `XMLHttpRequest`
  constructor);
- it keeps the list `opened` of transport handles in flight, called
  `openedList` here because `opened` is a Dafny keyword;
- `request` runs three guards, creates a handle and makes a fixed sequence of
  calls on it (`open`, one `setRequestHeader` per merged header, the timeout,
  `send`), then registers it;
- the handle's terminal event (`load`, `error`, `abort`, `timeout`) settles a
  promise, and a chain then closes the handle and feeds `handleResponse`,
  `handleJson` and `handleError`.

`assign` is a nested-loop, in-place copy of the own keys of each source onto a
target, later sources winning.

Files:

- `wrappers.dfy`: `Option` and `Result`.
- `builtins.dfy`: the JavaScript built-ins the core relies on.
  - `Array.prototype.indexOf`;
  - `String.prototype.indexOf`;
  - ASCII `toLowerCase`.
- `helpers.dfy`: the object model (ordered own keys plus a map) and `Assign`.
  - `Assign` is a method with two loops over a `JsObject` class.
  - It is proved against the function `AssignAll`.
  - The properties `AssignAll` leaves are proved equal to a right-biased union of maps (`AssignAllProps`).
  - Its key order is constrained only so far: the target's old keys come first, in their old order, and no key is listed twice (`AssignAllValid`).
- `transport.dfy`: the transport handle as a class `Xhr`.
  - It records every call made on it, in order.
  - It fires at most one terminal event.
  - It carries the two promises `request` builds around it.
- `stages.dfy`: the constants and the pure decisions.
  - The guards, `serialize`, `handleResponse`, `handleJson`, `handleError`.
  - The listeners' mapping from event to settlement, and the chain.
  - The plan of calls a request makes.
- `registry.dfy`: what `add`, `close` and `abort` do to the list of handles, as sequence functions with their lemmas.
- `fetch_please.dfy`: the `Client` class.
  - The constructor, `request` (split into its steps), `setHeaders`, `add`, `close` and `abort`.
  - The eight verb wrappers.
  - `Deliver`, the event step.

`Client.Valid()` is the client's invariant: the settings are well formed, no
handle is registered twice, and every registered handle's promise is still
pending. The constructor establishes it. `Request`, the eight verb methods,
`Deliver` and `Abort` keep it. `Add` and `Close` are the bare list operations
and do not mention it: adding a handle that is already registered would break
it, and `request` only ever adds a handle it has just created.

The ghost field `created` logs every handle the client creates (in `Prepare`).
It lets the contract of `Request` say that an abandoned request's handle is
created but never sent nor registered. That a refused request creates no
handle is stated without the log: `Request` and the eight verb methods ensure
that no object of class `Xhr` is allocated on that path (`IsNew` names
allocation since the call).

## Model

| member | source | states |
|---|---|---|
| `Stages.Guard` | src/fetch-please.js:79-89 | the request is refused exactly when the transport constructor or `Promise` is missing or the verb is not one of GET, PUT, POST, DELETE; the three checks apply in that order, each with its own message |
| `Stages.Serialize` | src/fetch-please.js:156-178 | `FormData`, `Blob`, `null` and strings pass unchanged; any other value becomes the text `JSON.stringify` gives, or `ERROR_INVALID_DATA` exactly when `JSON.stringify` throws; the result is never an unserialised value |
| `Stages.SerializeIdempotent` | src/fetch-please.js:156-178 | a body `serialize` produced goes through `serialize` again unchanged, so data serialized beforehand is sent as the caller built it |
| `Stages.HandleResponse` | src/fetch-please.js:344-354 | the handle passes unchanged exactly when 200 <= status <= 299, otherwise the stage fails with `ERROR_UNACCEPTABLE_HTTP_CODE` |
| `Stages.HandleJson` | src/fetch-please.js:321-335 | a Content-Type containing `application/json` after lower-casing (missing counts as empty) is parsed, a parse failure giving `ERROR_JSON_PARSE`; any other response yields no value and no error |
| `Stages.JsonContentTypeAnyCase` | src/fetch-please.js:323-328 | a Content-Type holding `application/json` in any ASCII casing, anywhere, selects JSON decoding |
| `Stages.NoContentTypeNotJson` | src/fetch-please.js:323-328 | a missing Content-Type counts as `''` and is never decoded as JSON |
| `Stages.HandleError` | src/fetch-please.js:361-364 | the rethrown error carries the same message |
| `Stages.RejectionMessage` | src/fetch-please.js:93-95 | `error` rejects with `ERROR_RESOURCE_FAILED`, `abort` with `ERROR_RESOURCE_ABORTED`, `timeout` with `ERROR_CONNECTION_TIMEOUT`; `load` has no rejection message |
| `Stages.OnEvent` | src/fetch-please.js:92-101 | on a pending promise, a non-load event rejects with its message, and `load` resolves with the response when the status is non-zero and otherwise leaves it pending; a settled promise stays as it is |
| `Stages.OnEventSettlesOnce` | src/fetch-please.js:92-101 | only the first settling event counts: a second event changes nothing, except after a `load` with status 0, which did not settle; the promise is rejected exactly by a non-load event and resolved exactly by a `load` with non-zero status |
| `Stages.Pipeline` | src/fetch-please.js:109-123 | the caller's promise is pending exactly while the raw one is; a rejection keeps its message through `handleError`; a status outside 200-299 fails with `ERROR_UNACCEPTABLE_HTTP_CODE`; then `handleJson` decides: no value, the parsed value, or `ERROR_JSON_PARSE` |
| `Stages.EffectiveTimeout` | src/fetch-please.js:138 | the client's timeout wins when non-zero, otherwise the call's timeout is used |
| `Stages.MergedHeadersProps` | src/fetch-please.js:133 | the merged headers are the client's headers overridden key by key by the call's; keys are compared exactly, so a per-call `content-type` does not override a client `Content-Type` |
| `Stages.HeadersAllSent` | src/fetch-please.js:186-191 | every key of the client's or the call's headers gets a `setRequestHeader` call with the winning value, unfiltered |
| `Stages.HeadersSetOnce` | src/fetch-please.js:186-191 | no header name is set twice as an exact JavaScript key; names differing only in case are both set, and the transport joins them into one HTTP header |
| `Stages.SetupShape` | src/fetch-please.js:126-139 | before `send` the handle sees `open(method, this.path + path)` first, then exactly `setRequestHeader(key, value)` for each merged key in key order, then the timeout, and no `send` |
| `Stages.RequestPlanOrder` | src/fetch-please.js:78-149 | the plan is a refusal exactly when a guard fails, with that guard's message; otherwise the calls are `open`, the header calls for the merged keys in key order, the timeout, `send(serialize(data))`; if `serialize` throws, the handle has seen `open`, the headers and the timeout but no `send`, and the error is `ERROR_INVALID_DATA` |
| `FetchPlease.Client.constructor` | src/fetch-please.js:54-62 | `path` defaults to `''` and `settings` to `{}`; the defaults are timeout 0, empty headers and the global `XMLHttpRequest`; every key present in `settings`, `path` included, overrides them; `opened` starts empty |
| `FetchPlease.Client.Request` | src/fetch-please.js:78-149 | does what the plan says: a refused request throws the guard's message, allocates no handle at all and leaves `opened` unchanged; when `serialize` throws, exactly one new handle was logged, which saw exactly the planned calls (no `send`), has no response and is not registered; otherwise exactly one new handle with both promises pending was logged, has seen exactly the planned calls and is registered last |
| `FetchPlease.Client.Dispatch` | src/fetch-please.js:91-148 | after the guards: one new handle is configured, and then it is either abandoned, unsent and unregistered, with the `serialize` error, or sent and registered |
| `FetchPlease.Client.Prepare` | src/fetch-please.js:91-139 | one new handle, logged as created and not registered, with no event and no response, that has seen exactly `open`, the header calls and the timeout |
| `FetchPlease.Client.SendAndRegister` | src/fetch-please.js:143-146 | `send(body)` is the handle's last call, and the handle is then registered at the end of `opened` |
| `FetchPlease.Client.Configure` | src/fetch-please.js:126-139 | appends `open`, the merged header calls and the timeout to the handle's calls, in that order |
| `FetchPlease.Client.MergeHeaders` | src/fetch-please.js:133 | `assign({}, this.headers, settings.headers)` yields the merged header object |
| `FetchPlease.Client.SetHeaders` | src/fetch-please.js:186-191 | one `setRequestHeader(name, value)` per key, in key order, and returns the same handle |
| `FetchPlease.Client.Add` | src/fetch-please.js:204-206 | appends the handle at the end of `opened` |
| `FetchPlease.Client.Close` | src/fetch-please.js:213-219 | removes the first occurrence of the handle, if any, and returns the handle |
| `FetchPlease.Client.Deliver` | src/fetch-please.js:92-117 | a handle that already fired ignores the event; otherwise the listener settles the raw promise, and when it settles now the handle is closed and the caller's promise gets the chain's outcome; nothing else changes |
| `FetchPlease.Client.Abort` | src/fetch-please.js:196-198 | every registered handle gets `abort()`; each one that had not fired fails with `ERROR_RESOURCE_ABORTED` and is closed; exactly the handles that had already fired stay, in order |
| `FetchPlease.Client.AbortEach` | src/fetch-please.js:197 | the `forEach` loop: after all steps, every handle of the snapshot is aborted and the kept handles are `opened` |
| `FetchPlease.Client.AbortNext` | src/fetch-please.js:197 | one iteration of the loop moves its invariant one handle on |
| `FetchPlease.Client.AbortAt` | src/fetch-please.js:197 | aborting the handle at position `i` changes only that handle and either keeps it or closes it |
| `FetchPlease.Client.AbortHandle` | src/fetch-please.js:197 | `xhr.abort()` plus its listener and chain: the handle is cancelled and fails with `ERROR_RESOURCE_ABORTED` unless it had fired, in which case it stays registered |
| `FetchPlease.AbortProgressStep` | src/fetch-please.js:197 | aborting the next handle moves the loop's progress one step on |
| `FetchPlease.AbortProgressDone` | src/fetch-please.js:197 | at the end of the loop the kept handles are those that had fired, and every handle was aborted |
| `FetchPlease.AbortEmpties` | src/fetch-please.js:196-198 | when no registered handle had fired, `abort()` leaves `opened` empty |
| `FetchPlease.Client.RequestThenSettle` | test/request.spec.js:76-107 | a sent request whose handle then settles, on the resolve or the reject path, leaves `opened` as it was, and its promise gets the chain's outcome |
| `FetchPlease.Client.TwoRequests` | test/request.spec.js:76-83 | two identical requests are sent or refused together; when sent, both handles are registered, different and in order |
| `FetchPlease.Client.GetRequest` | src/fetch-please.js:276-279 | `request('GET', joinParams(url, params), null, settings)` |
| `FetchPlease.Client.PutRequest` | src/fetch-please.js:288-290 | `request('PUT', url, data, settings)` |
| `FetchPlease.Client.PostRequest` | src/fetch-please.js:299-301 | `request('POST', url, data, settings)` |
| `FetchPlease.Client.DeleteRequest` | src/fetch-please.js:310-313 | `request('DELETE', joinParams(url, params), null, settings)` |
| `FetchPlease.Client.Get` | src/fetch-please.js:228-231 | the effect of `getRequest`; the promise is read from the handle |
| `FetchPlease.Client.Put` | src/fetch-please.js:240-243 | the effect of `putRequest` |
| `FetchPlease.Client.Post` | src/fetch-please.js:252-255 | the effect of `postRequest` |
| `FetchPlease.Client.Delete` | src/fetch-please.js:264-267 | the effect of `deleteRequest` |
| `Registry.RemoveFirstIsSplice` | src/fetch-please.js:213-219 | removing the first occurrence is `splice(indexOf(x), 1)` |
| `Registry.RemoveFirstAbsent` | src/fetch-please.js:214-217 | closing a handle that is not registered leaves the list unchanged |
| `Registry.RemoveFirstAfter` | src/fetch-please.js:213-219 | closing `x` in `a + [x] + b`, with no `x` in `a`, leaves `a + b`; the others keep their order |
| `Registry.RemoveFirstMultiset` | src/fetch-please.js:213-219 | `close` removes exactly one occurrence and nothing else |
| `Registry.RemoveFirstDistinct` | src/fetch-please.js:213-219 | on a list without duplicates, `close(x)` removes every trace of `x`, keeps every other element and leaves no duplicates |
| `Registry.AddThenClose` | src/fetch-please.js:204-219 | `add` then `close` of a new handle restores the list |
| `Registry.KeepNone` | src/fetch-please.js:196-198 | keeping with no flag set keeps nothing |
| `Registry.KeepAll` | src/fetch-please.js:196-198 | keeping with every flag set keeps everything |
| `Registry.KeepMember` | src/fetch-please.js:196-198 | a handle stays after `abort()` exactly when its own flag says it had fired |
| `Registry.KeepDistinct` | src/fetch-please.js:196-198 | what stays after `abort()` has no duplicates |
| `Registry.UniqueDistinct` | src/fetch-please.js:204-219 | the no-duplicates invariant on `opened`, stated from the end of the list, is the same as pairwise difference |
| `Helpers.Assign` | src/helpers.js:8-25 | returns the very target it was given, whose new state is `AssignAll` of its old state and the sources |
| `Helpers.JsObject.Set` | src/helpers.js:20 | `target[key] = value`: a new key goes last, an existing one keeps its place |
| `Helpers.PutValid` | src/helpers.js:20 | a property write keeps the object well formed and never moves an existing key |
| `Helpers.CopyKeysValid` | src/helpers.js:13-21 | the inner loop keeps the target well formed and its old keys first, in their order |
| `Helpers.CopyKeysProps` | src/helpers.js:13-21 | after the inner loop the target has its old properties overridden by the source's |
| `Helpers.AssignOneProps` | src/helpers.js:10-21 | one pass of the outer loop is a right-biased map union with that source |
| `Helpers.AssignAllProps` | src/helpers.js:9-22 | the properties `assign` leaves are the right-biased union of the target and all sources |
| `Helpers.AssignAllValid` | src/helpers.js:9-22 | a well-formed target stays well formed and keeps its own keys first, in their old order |
| `Helpers.UnionKeys` | src/helpers.js:13-21 | the result's keys are the target's keys together with every source's own keys |
| `Helpers.UnionLastWins` | src/helpers.js:9-21 | a key takes the value from the last source that has it |
| `Helpers.UnionUntouched` | src/helpers.js:20 | a key of no source keeps its presence and its value from the target |
| `Helpers.AssignAllNullish` | src/helpers.js:9-11 | with only `null`/`undefined` sources, or none, the target stays exactly as it was |
| `Helpers.AssignSemantics` | src/helpers.js:8-24 | `assign`'s promises together: key-set union, later sources winning over earlier ones and over the target, untouched keys of the target |
| `Builtins.ArrayIndexOf` | src/fetch-please.js:87 | `indexOf` is -1 exactly when the element is absent, and otherwise the position of its first occurrence |
| `Builtins.IndexOfFrom` | src/fetch-please.js:328 | for a start position within the string, `indexOf` gives the first position at or after it where the needle occurs, or -1 when it occurs nowhere there |
| `Builtins.IncludesIff` | src/fetch-please.js:328 | `indexOf(t) !== -1` holds exactly when `t` occurs somewhere |
| `Transport.Xhr.constructor` | src/fetch-please.js:91-101 | a new handle has seen no calls, has not fired, has no response, and both promises built around it are pending |
| `Transport.Xhr.Open` | src/fetch-please.js:127 | `xhr.open(method, url)` is appended to the handle's calls |
| `Transport.Xhr.SetRequestHeader` | src/fetch-please.js:188 | `xhr.setRequestHeader(name, value)` is appended to the handle's calls |
| `Transport.Xhr.SetTimeout` | src/fetch-please.js:139 | `xhr.timeout = ms` is appended to the handle's calls |
| `Transport.Xhr.Send` | src/fetch-please.js:143 | `xhr.send(body)` is appended to the handle's calls |
| `Transport.Xhr.Cancel` | src/fetch-please.js:197 | `xhr.abort()` is appended to the handle's calls |
| `Transport.Xhr.Finish` | src/fetch-please.js:92-101 | the handle fires its terminal event only when it has not fired before, taking the response of a `load` |

## Left out

- `joinParams` is imported from the helpers module but not defined there. It is the environment function `Globals.joinParams`, uninterpreted.
- `JSON.stringify` and `JSON.parse` are functions of the environment (`None` where they throw). Numbers in JSON values are integers.
- Whether the globals `XMLHttpRequest` and `Promise` exist is a fact of the environment. `global.FormData` and `global.Blob` are assumed present.
  - `FormData` and `Blob` instances are payload variants named by identity.
  - An omitted or `undefined` `data` becomes `null` through `request`'s default (src/fetch-please.js:78), which is `NoBody` here. Only a direct `serialize(undefined)` call falls outside the model.
  - `JSON.stringify` returning `undefined` is not modelled.
- The `cors` probe (a new transport instance and `'withCredentials' in ...`) is not modelled; it is detection code with no effect on requests.
- Network I/O and promise microtasks are not modelled.
  - `Deliver` runs the listener and the whole chain as one synchronous step.
  - `abort()` walks a snapshot of `opened`. In the source the closes happen in later microtasks, so the `forEach` also sees the list unchanged.
- `xhr.abort()` is modelled to raise `abort` exactly on a handle that has not fired yet.
  - A handle that fired a `load` with status 0 stays pending and registered, and `abort()` keeps it.
  - `FetchPlease.AbortEmpties` covers the case where no handle had fired.
- Progress events of the transport are not modelled. Per-call overrides `settings.handleJson`, `settings.handleResponse` and `settings.handleError` are not modelled either. The default stages are always used.
- Keys of `settings` other than `headers` and `timeout` are not modelled. Every falsy `settings.timeout` is modelled as 0, and so is a falsy `this.timeout`.
- The constructor's `settings` covers `path`, `timeout`, `headers` and `XMLHttpRequest`; other keys that `assign` would copy onto the client are not modelled.
- Header values are scalars; header objects given as functions (the documented but unimplemented callback) are not modelled.
- `assign`: sources that are primitives (`Object(42)`, `Object('ab')`) are not modelled; only objects, `null` and `undefined` are.
  - Own keys are listed in insertion order.
  - JavaScript lists integer-like keys first; that ordering is not modelled.
- `Helpers.Assign`: a source that is the target itself is read as it was at the call. In JavaScript it is read as the earlier sources left it, so when `t` already has `a`, `assign(t, {a: 1}, t)` leaves `a` at 1; the model writes the old `a` back.
- `Helpers.Assign`: a source's `hasOwnProperty` is taken to be the ordinary one. A source without a prototype that has keys makes `obj.hasOwnProperty` throw a TypeError. A source with an own `hasOwnProperty` key may skip keys or throw. The model covers neither case.
- `Helpers.Assign`: an own `__proto__` key of a source sets the target's prototype in JavaScript and never becomes an own key; the model copies it like any other key.
  - The two calls in the client pass `this`'s defaults, the caller's settings and the header objects. None of these edge cases arises unless a caller passes such objects.
- `toLowerCase` is modelled on ASCII letters only.
- `Builtins.IndexOfFrom`: requires the start position to lie within the string. JavaScript clamps a larger start to the length, so `'abc'.indexOf('', 5)` is 3. The client only ever searches from 0.
- Transport calls are modelled as never throwing. In the source, `xhr.open` (src/fetch-please.js:127), `xhr.setRequestHeader` (:188) and `xhr.send` (:143) are called without a `try`.
  - Under the XMLHttpRequest standard, `setRequestHeader` throws on a header name that is not a token, and on a value holding CR, LF or a character above U+00FF.
  - Headers go out unfiltered, so such a header makes `request` throw after the handle was created and opened. That handle is then neither sent nor registered.
  - The model's plan has no case for this: such a request is sent and registered.
- `FetchPlease.Client.Request`: on the abandon and send paths, "exactly one new handle" is counted in the ghost log `created`. The contract does not rule out further handles that are allocated and never logged (on the refuse path it does rule out any allocation).
- The verb shorthands `Get`/`Put`/`Post`/`Delete` return the `{xhr, promise}` pair's handle. The caller's promise is the handle's `result`.
- src/talaria.js and webpack.config.js are not part of this model. The first holds only stubs; the second is build configuration.
