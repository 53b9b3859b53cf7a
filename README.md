# sth-directory-proxy in Dafny

This project models the two serverless endpoints of sth-directory-proxy:

- **save** (`api/save.js`). An authenticated proxy that lets a trusted front end replace one JSON file in a GitHub repository without holding a write token. It attaches CORS headers and routes on the HTTP method. It extracts a shared key from `X-API-Key` or a `Bearer` `Authorization` header and compares it with the configured `CLIENT_SHARED_KEY`. It reads `json`, `message`, `owner`, `repo`, `path` and `branch` from the body, with defaults. Then it makes at most two outbound calls, strictly in order: a GET for the file's current revision (`sha`), and a PUT of the new content tagged with exactly that `sha`. Each outcome, including a thrown exception, becomes a status code and body.
- **health** (`api/health.js`). Reports whether `CLIENT_SHARED_KEY` and `GITHUB_TOKEN` are configured, giving presence and length only.

Files:

- `env.dfy` (module `Env`): the process configuration, an immutable `Config` passed to every request.
- `js.dfy` (module `Js`): the JavaScript semantics the handlers rely on:
  - values of a parsed JSON body, plus `undefined`;
  - truthiness, and `String(v)` as template literals and `encodeURIComponent` apply it, which throws for an object with its own `toString` property;
  - `String.prototype.trim` over the ECMAScript white-space and line-terminator set, and `startsWith`;
  - the UTF-16 `length` of a string;
  - property reads, which throw on `null` and `undefined`.
- `save.dfy` (module `Save`):
  - `Pipeline` is a pure reference definition of one request. It gives the status, the body and the trace of outbound calls.
  - `Handler` is the handler itself. It works step by step on a `Response` object (header table, status, body) and a `Remote` store object that records every call in `trace` and answers it by an abstract oracle `answer`.
  - `Handler` is proved to produce exactly `Pipeline`'s status, body and trace, and the five CORS headers on every exit.
- `health.dfy` (module `Health`): the probe as a function of the configuration.

The remote store is an oracle `Call -> Attempt<Reply>`. A reply holds `ok`, and the results of reading the reply's body as text and as JSON; each read may throw. So the exceptions the `try` block can meet are explicit `Threw` outcomes. One exception is not modelled: the URIError for a lone surrogate, listed under "Left out" below. The modelled ones are:
- a rejected `fetch`;
- a failing `text()` or `json()`;
- reading `sha` or `commit` from a `null` reply;
- converting a location field to a string. The generated commit message (api/save.js:57) and the GET URL (api/save.js:60-62) interpolate `path`, `owner`, `repo` and `branch`. A body field that is an object with its own `toString` key makes that conversion throw a TypeError before any call is made.

Each of these leads to the 500 `Server error: ` path. The PUT URL (api/save.js:85) interpolates the same fields again. That conversion already succeeded for the GET URL, so it cannot throw.

The model keeps these details of the code:

- The preflight status is always 204.
- The body fields are named `json`, `message`, `owner`, `repo`, `path` and `branch`.
- A location default applies only when the field is `undefined`. A field given as `null` or `""` is passed on as it is, and it appears in the URL as "null" or "".
- The 400 path is taken for any falsy `json` (`0`, `false`, `""`, `null`), not only for a missing one.
- Five CORS headers are sent, including `Vary: Origin`, and `Access-Control-Allow-Headers` also lists `X-API-Key`.
- The success body's `commit` is `out.commit && out.commit.sha`. It can be a falsy `commit` value itself, or `undefined`.
- A missing target file is a generic GET failure (500). There is no create-if-absent.

## Model

| member | source | states |
|---|---|---|
| `Save.CorsTable` | api/save.js:4-10 | the header table gains exactly the five CORS headers with their fixed values (origin as given); every other header is kept |
| `Save.WithCors` | api/save.js:4-10 | `withCORS` sets the five headers one `setHeader` at a time, ending with the table `CorsTable` describes, and leaves status and body alone |
| `Save.CorsTableIdempotent` | api/save.js:104-107 | attaching CORS again in the `catch` block changes nothing, and the table always has the five headers |
| `Save.Handler` | api/save.js:12-109 | on every exit (preflight, 405, early returns, exception) the response has the five CORS headers; status, body and the appended outbound calls are those of `Pipeline` |
| `Save.TryUpdate` | api/save.js:25-103 | the `try` block either sends the response `Guard` returns, or stops at the exception `Guard` raises with status and body untouched; the calls made are `Guard`'s |
| `Save.GetThenPut` | api/save.js:64-103 | the GET, then the PUT only after an ok GET, each appended to the trace in that order; the response is set as `AfterGet` returns, or left untouched when it raises |
| `Save.Response.constructor` | api/save.js:12 | a fresh response has no headers, status 200 and nothing sent |
| `Save.Response.SetHeader` | api/save.js:5-9 | `res.setHeader` updates one entry of the header table and nothing else |
| `Save.Response.Status` | api/save.js:18 | `res.status` sets the status code and nothing else |
| `Save.Response.Send` | api/save.js:18 | `res.send` sets a text body and nothing else |
| `Save.Response.Json` | api/save.js:103 | `res.json` sets a JSON body and nothing else |
| `Save.Remote.constructor` | api/save.js:64 | a store starts with an empty trace and answers by the given oracle |
| `Save.Remote.Fetch` | api/save.js:64-69 | each `fetch` appends its call to the trace and returns the oracle's answer to that call |
| `Save.HeaderText` | api/save.js:32-33 | the lower-case header name is consulted first; only when it is missing or empty is the canonical-case name used, else "" |
| `Save.ProvidedKey` | api/save.js:31-37 | the key is the trimmed `X-API-Key` if that is not blank; otherwise the trimmed rest of an `Authorization` that starts with exactly "Bearer "; otherwise ""; it never has white space at either end |
| `Save.ApiKeyHeaderWins` | api/save.js:33-36 | a non-empty key sent in `x-api-key` with white space around it is accepted as that key, whatever `Authorization` says |
| `Save.BearerKeyAccepted` | api/save.js:32-37 | with a blank `X-API-Key`, "Bearer " + padding + key + padding in `Authorization` yields exactly the key |
| `Save.Authorized` | api/save.js:39 | the request is admitted exactly when the presented key is truthy and strictly equal to the configured key; an unset configured key or an empty presented key admits nobody |
| `Save.Field` | api/save.js:44-51 | reading a field of the body, or of `{}` when the body is falsy, gives the body's field when the body is an object holding it, and `undefined` otherwise |
| `Save.ReadBody` | api/save.js:44-51 | `json` and `message` are read as given; `owner`, `repo`, `path`, `branch` default to "synergytao", "synergytaohub-directory", "data/directory.json", "main" exactly when undefined, and are kept as given otherwise |
| `Save.CommitMessage` | api/save.js:57 | a truthy `message` is used as given; otherwise "Update " + String(path) + " via directory admin", which throws the conversion TypeError exactly when `path` cannot be converted; a message produced is always truthy |
| `Save.Prepare` | api/save.js:57-62 | the steps before the first call throw, with the conversion TypeError, exactly when one of `owner`, `repo`, `path`, `branch` cannot be converted to a string; otherwise they yield the commit message |
| `Save.DefaultCommitMessage` | api/save.js:49-57 | with neither path nor message, the message is "Update data/directory.json via directory admin" and nothing throws |
| `Save.ContentOf` | api/save.js:80 | content is the `json` string verbatim exactly when `json` is a string, and the serialization of `json` otherwise |
| `Save.GetFor` | api/save.js:60-69 | the GET reads `path` at ref `branch` in `owner`/`repo`, authorized with the configured token |
| `Save.PutFor` | api/save.js:84-95 | the PUT writes the same owner, repo and path the GET read, on the branch the GET read, with the same token; it carries the given `sha`, the commit message and the content of `json` |
| `Save.Success` | api/save.js:103 | the success body is an object with exactly the keys `ok` (true) and `commit` (the given value) |
| `Save.CommitSha` | api/save.js:102-103 | `out.commit && out.commit.sha` throws exactly on a `null` reply; a falsy `commit` is returned as it is, a truthy one gives its `sha` |
| `Save.AfterPut` | api/save.js:84-103 | the PUT stage keeps the call trace it was given; it returns only 200 or 500, and 200 only when the PUT was answered ok |
| `Save.AfterGet` | api/save.js:60-103 | one or two calls; the first is the GET for the body's location; a second is the PUT belonging to an ok GET and carrying the `sha` read from its answer; every call carries the configured token; 200 only after an ok PUT |
| `Save.Guard` | api/save.js:39-103 | calls happen only after the key is authorized, `json` is truthy and the location fields convert to strings; the statuses returned are 200, 400, 401 or 500 |
| `Save.ErrorText` | api/save.js:107 | the catch block reports the exception's message when it is not empty, and its `String(err)` form otherwise |
| `Save.Pipeline` | api/save.js:12-109 | at most two calls; any call implies POST, an authorized key, a truthy `json` and convertible location fields, and the first is the GET; a second is the PUT belonging to the GET with the GET's `sha`; every call carries the token; status is one of 200, 204, 400, 401, 405, 500; 200 only after an ok PUT |
| `Save.PreflightAnswered` | api/save.js:17-19 | OPTIONS gives 204, an empty body and no call |
| `Save.OnlyPostAllowed` | api/save.js:21-23 | any method other than OPTIONS and POST gives 405 "Only POST allowed" and no call |
| `Save.UnauthorizedMakesNoCall` | api/save.js:39-41 | an empty key or one different from the configured key gives 401 "Unauthorized" and no call |
| `Save.UnsetKeyRejectsEveryPost` | api/save.js:39-41 | with `CLIENT_SHARED_KEY` unset, every POST gets 401 and no call |
| `Save.MissingJsonRejected` | api/save.js:53-55 | an authorized POST with a falsy `json` gives 400 "Bad Request: include { json }" and no call |
| `Save.UnconvertibleLocationMakesNoCall` | api/save.js:57-62 | an authorized POST with a truthy `json` whose location field cannot be converted to a string gives 500 "Server error: Cannot convert object to primitive value" and no call |
| `Save.FailedGetStops` | api/save.js:71-74 | a GET that is not ok gives 500 "GitHub GET failed: " + the store's text, and the GET is the only call |
| `Save.NoPutWithoutOkGet` | api/save.js:64-76 | when the GET throws or is not ok, no PUT is made |
| `Save.ReachedPutDecides` | api/save.js:76-103 | once a request has read `sha` from an ok GET, its calls are that GET and the PUT carrying `sha`, and its outcome depends only on the PUT's answer |
| `Save.PutCarriesRevision` | api/save.js:76-93 | after an ok GET carrying `sha`, the calls are exactly that GET and then the PUT with that `sha`, the same branch, the commit message and the content of `json` |
| `Save.FailedPutReported` | api/save.js:97-100 | a PUT that is not ok gives 500 "GitHub PUT failed: " + the store's text |
| `Save.SuccessReported` | api/save.js:102-103 | an ok PUT whose answer parses gives 200 `{ok: true, commit: out.commit && out.commit.sha}` |
| `Save.ExceptionReported` | api/save.js:104-107 | an exception in the `try` block gives 500 "Server error: " + (message, or String(err) when it has none), keeping the calls made before it |
| `Js.Trim` | api/save.js:36-37 | `trim()` is a slice of the string with only white space before and after it, and no white space at either end of its own; it is empty exactly when the string is all white space |
| `Js.TrimIsSlice` | api/save.js:36-37 | removing leading and then trailing white space leaves a slice of the string with only white space around it |
| `Js.TrimStart` | api/save.js:36-37 | the result is a suffix of the input; it has no leading white space, and only white space was dropped |
| `Js.TrimEnd` | api/save.js:36-37 | the result is a prefix of the input; it has no trailing white space, and only white space was dropped |
| `Js.TrimOfPadded` | api/save.js:36-37 | trimming white space + core + white space, where the core has no white space at either end, gives the core |
| `Js.TrimIdempotent` | api/save.js:36-37 | trimming a trimmed key again changes nothing |
| `Js.Member` | api/save.js:77 | reading `sha` or `commit` throws exactly on `null`/`undefined`; gives the object's field when present, `undefined` otherwise |
| `Js.PropertyReadError` | api/save.js:77 | the TypeError raised by reading from `null` has a non-empty message, so the catch block reports that message |
| `Js.ToString` | api/save.js:57 | `String(v)` throws the TypeError "Cannot convert object to primitive value" exactly when `v` is not convertible (an object with its own `toString`, or an array holding one); otherwise `undefined`, `null`, booleans and other objects give "undefined", "null", "true"/"false" and "[object Object]", a string gives itself, an integer its canonical numeral `IntToString(n)`, and an array its `join(",")` |
| `Js.JoinItems` | api/save.js:57 | an array's `join(",")` throws exactly when one of its elements cannot be converted, with the conversion TypeError |
| `Js.Interpolate` | api/save.js:60-62 | the substitutions of the URL template convert left to right; the template throws exactly when one of them cannot be converted, and otherwise yields each one's `String(v)` |
| `Js.IntToString` | api/save.js:57 | the text of an interpolated integer is a decimal numeral that reads back as the integer; it starts with "-" exactly for negatives, and its digits have no leading zero, with or without the sign |
| `Js.Digits` | api/save.js:57 | the decimal digits of a natural number read back as that number, with no leading zero |
| `Js.Utf16Length` | api/health.js:2 | JavaScript's `length` counts UTF-16 units: between the number of characters and twice it, and 0 exactly for "" |
| `Js.Utf16LengthConcat` | api/health.js:2 | the length of a concatenation is the sum of the lengths |
| `Health.SharedKeyLength` | api/health.js:2 | the key's length, or 0 when it is unset; 0 exactly when it is unset or empty |
| `Health.Probe` | api/health.js:5-11 | status 200 and `ok: true`; `clientSharedKeyLength` is `SharedKeyLength`; `clientSharedKeyPresent` holds exactly when that length is positive, i.e. when the key is set and not empty; `githubTokenPresent` exactly when the token is set and not empty |
| `Health.HasToken` | api/health.js:3 | `!!GITHUB_TOKEN` is the truthiness of the variable (`undefined` when unset): true exactly when the token is set and not empty |
| `Health.ProbeRevealsNoSecret` | api/health.js:5-11 | two configurations with the same key length and token presence get the same answer, so the answer reveals no secret value |
| `Health.BmpKeyLength` | api/health.js:2 | the reported length is the key's number of characters exactly when every character is in the Basic Multilingual Plane |

## Left out

- The outbound `fetch` calls are not executed; the remote store is the oracle `answer`. Left out with them: the URLs, `encodeURIComponent`, and the `User-Agent` and `Content-Type` request headers (api/save.js:60-69, 84-95). A call records the location fields, the commit message, the content, the `sha`, the branch and the token it is authorized with.
- `JSON.stringify(json, null, 2)`, base64 encoding and the JSON body of the PUT are library serialization. The content is recorded symbolically as `Verbatim(text)` or `Serialized(value)`. No serialization round trip is proved.
- `async`/`await`: the two awaited calls are strictly sequential, so there is no concurrency to model.
- Which exceptions the runtime raises is abstract. A `Thrown` value carries an exception's `message` and its `String(err)` form; the oracle decides when `fetch`, `text()` or `json()` throw.
- `process.env` loading: the configuration is an immutable parameter.
- The JSON rendering of response bodies and of the health record is left out, including dropping an `undefined` `commit` key. So are the `Content-Type` headers that `res.json`, `res.send` and the health probe's `res.setHeader` add.
- Header tables are maps from names to strings. Node's `setHeader` is case-insensitive in header names, but only the fixed CORS names are ever set, so this does not matter here. Array-valued inbound headers are not modelled; Node gives string values for `authorization` and `x-api-key`.
- Js.JsValue: numbers are exact integers, not IEEE 754 doubles. Fractions, NaN, rounding to the nearest double and the exponent notation of `String(n)` from 10^21 upwards are not modelled.
- Js.IntToString: gives the exact decimal digits of an integer. JavaScript first rounds a number beyond ±2^53 to a double and prints the shortest digits that read back as that double. So for `1152921504606846976` JavaScript prints "1152921504606847000", while the model prints the digits as given.
- Js.ToString: converts a number through `IntToString`, so it inherits the same difference for integers beyond ±2^53. For example, a body with such a `path` and no `message` gets a different generated commit message (api/save.js:57).
- Save.Prepare: `encodeURIComponent` (api/save.js:60-62) throws URIError "URI malformed" when `path` or `branch` holds a lone surrogate, which `JSON.parse` can produce. The source then answers 500 "Server error: URI malformed" with no call. Dafny strings cannot hold a lone surrogate, so this path is not modelled. The "throws exactly when" of `Prepare` covers only the TypeError of the string conversion.
- Js.Utf16Length: strings are sequences of Unicode scalar values, so lone surrogates cannot be represented.
- Js.Convertible: values come from a parsed JSON body, so they hold no functions, no symbols and no prototype other than the built-in ones. Conversions that call user code are not modelled.
- Js.Member: models only property reads with keys that no built-in prototype defines (the handler reads only `sha` and `commit`). It does not model prototype properties such as `length`.
