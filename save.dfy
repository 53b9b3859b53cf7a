/** The save endpoint: an authenticated proxy that replaces one file of a
    remote content repository. It attaches CORS headers, routes on the
    HTTP method, checks a shared key, fills in the file's location from
    the body, reads the file's current revision (`sha`) from the store and
    then writes the new content tagged with exactly that revision.

    `Pipeline` is the reference definition of one request: its status,
    body and the outbound calls it makes. `Handler` is the request handler
    itself, working step by step on a `Response` object and a `Remote`
    store; it is proved to do what `Pipeline` says. */
module Save {
  import opened Env
  import opened Js

  // ----- Requests, responses and the remote store -----

  /** An inbound request: its method, its header table and its parsed body. */
  datatype Request = Request(httpMethod: string, headers: map<string, string>, body: JsValue)

  /** What a response carries as its body. */
  datatype Payload = Unsent | TextBody(text: string) | JsonBody(value: JsValue)

  /** The new file content: the `json` string itself, or the text
      `JSON.stringify(value, null, 2)`. Either text is sent in base64. */
  datatype Content = Verbatim(text: string) | Serialized(value: JsValue)

  /** An outbound call to the content store, with the location fields as
      they came out of the body and the access token it is authorized with. */
  datatype Call =
    | Get(owner: JsValue, repo: JsValue, path: JsValue, ref: JsValue, token: Option<string>)
    | Put(owner: JsValue, repo: JsValue, path: JsValue, message: JsValue, content: Content,
          sha: JsValue, branch: JsValue, token: Option<string>)

  /** The store's answer to a call: whether it succeeded, and what reading
      its body as text or as JSON gives. */
  datatype Reply = Reply(ok: bool, text: Attempt<string>, json: Attempt<JsValue>)

  /** How one request ends: the status, the body and the outbound calls. */
  datatype Exit = Exit(status: int, body: Payload, calls: seq<Call>)

  /** How the guarded part of the handler (its `try` block) ends: it either
      returns a response or throws, having made some calls first. */
  datatype Outcome =
    | Returned(status: int, body: Payload, calls: seq<Call>)
    | Raised(error: Thrown, calls: seq<Call>)

  /** The body fields the handler reads, after defaults. */
  datatype Update = Update(json: JsValue, message: JsValue, owner: JsValue,
                           repo: JsValue, path: JsValue, branch: JsValue)

  // ----- CORS -----

  const CorsHeaderNames: set<string> :=
    {"Access-Control-Allow-Origin", "Vary", "Access-Control-Allow-Methods",
     "Access-Control-Allow-Headers", "Access-Control-Max-Age"}

  /** The header table after `withCORS(res, origin)`. */
  function CorsTable(headers: map<string, string>, origin: string): (r: map<string, string>)
    ensures r.Keys == headers.Keys + CorsHeaderNames
    ensures r["Access-Control-Allow-Origin"] == origin
    ensures r["Vary"] == "Origin"
    ensures r["Access-Control-Allow-Methods"] == "OPTIONS, POST"
    ensures r["Access-Control-Allow-Headers"] == "Content-Type, Authorization, X-API-Key"
    ensures r["Access-Control-Max-Age"] == "86400"
    ensures forall name :: name in headers && name !in CorsHeaderNames ==> r[name] == headers[name]
  {
    headers["Access-Control-Allow-Origin" := origin]
           ["Vary" := "Origin"]
           ["Access-Control-Allow-Methods" := "OPTIONS, POST"]
           ["Access-Control-Allow-Headers" := "Content-Type, Authorization, X-API-Key"]
           ["Access-Control-Max-Age" := "86400"]
  }

  /** The five CORS headers with the values the handler always sends. */
  predicate HasCors(headers: map<string, string>) {
    && "Access-Control-Allow-Origin" in headers && headers["Access-Control-Allow-Origin"] == "*"
    && "Vary" in headers && headers["Vary"] == "Origin"
    && "Access-Control-Allow-Methods" in headers && headers["Access-Control-Allow-Methods"] == "OPTIONS, POST"
    && "Access-Control-Allow-Headers" in headers
    && headers["Access-Control-Allow-Headers"] == "Content-Type, Authorization, X-API-Key"
    && "Access-Control-Max-Age" in headers && headers["Access-Control-Max-Age"] == "86400"
  }

  /** Attaching CORS a second time (as the exception path does) changes
      nothing, and the result always has the five headers. */
  lemma CorsTableIdempotent(headers: map<string, string>)
    ensures HasCors(CorsTable(headers, "*"))
    ensures CorsTable(CorsTable(headers, "*"), "*") == CorsTable(headers, "*")
  {
  }

  // ----- Authentication -----

  /** `(headers[lower] || headers[canonical] || "").toString()`. */
  function HeaderText(headers: map<string, string>, lower: string, canonical: string): (r: string)
    ensures lower in headers && headers[lower] != "" ==> r == headers[lower]
    ensures !(lower in headers && headers[lower] != "") ==>
              r == (if canonical in headers then headers[canonical] else "")
  {
    if lower in headers && headers[lower] != "" then headers[lower]
    else if canonical in headers && headers[canonical] != "" then headers[canonical]
    else ""
  }

  function AuthorizationText(headers: map<string, string>): string {
    HeaderText(headers, "authorization", "Authorization")
  }

  function ApiKeyText(headers: map<string, string>): string {
    HeaderText(headers, "x-api-key", "X-API-Key")
  }

  /** The presented credential: the trimmed `X-API-Key` header if that is
      not blank, else the trimmed rest of an `Authorization` header that
      starts with exactly "Bearer ", else "". */
  function ProvidedKey(headers: map<string, string>): (key: string)
    ensures Trimmed(key)
    ensures Trim(ApiKeyText(headers)) != "" ==> key == Trim(ApiKeyText(headers))
    ensures Trim(ApiKeyText(headers)) == "" && StartsWith(AuthorizationText(headers), "Bearer ") ==>
              key == Trim(AuthorizationText(headers)[7..])
    ensures Trim(ApiKeyText(headers)) == "" && !StartsWith(AuthorizationText(headers), "Bearer ") ==>
              key == ""
  {
    var authHeader := AuthorizationText(headers);
    var apiKeyHeader := ApiKeyText(headers);
    var fromApiKey := if apiKeyHeader == "" then apiKeyHeader else Trim(apiKeyHeader);
    if fromApiKey != "" then fromApiKey
    else if StartsWith(authHeader, "Bearer ") then Trim(authHeader[7..])
    else ""
  }

  /** A key sent in the lower-case `x-api-key` header, with any white
      space around it, is the presented key, whatever else is sent. */
  lemma ApiKeyHeaderWins(headers: map<string, string>, p: string, k: string, q: string)
    requires AllSpace(p) && AllSpace(q) && Trimmed(k) && k != ""
    requires "x-api-key" in headers && headers["x-api-key"] == p + k + q
    ensures ProvidedKey(headers) == k
  {
    TrimOfPadded(p, k, q);
  }

  /** With no usable `X-API-Key`, a key sent as "Bearer " followed by the
      key (and white space) is the presented key. */
  lemma BearerKeyAccepted(headers: map<string, string>, p: string, k: string, q: string)
    requires AllSpace(p) && AllSpace(q) && Trimmed(k)
    requires AllSpace(ApiKeyText(headers))
    requires AuthorizationText(headers) == "Bearer " + p + k + q
    ensures ProvidedKey(headers) == k
  {
    var auth := AuthorizationText(headers);
    assert auth[..7] == "Bearer ";
    assert auth[7..] == p + k + q;
    TrimOfPadded(p, k, q);
  }

  /** The comparison at the gate, `!providedKey || providedKey !==
      CLIENT_SHARED_KEY` negated: a truthy key strictly equal to the
      configured one. An unset configured key (`undefined`) equals no
      string, so it admits nobody; an empty key is never admitted. */
  function Authorized(key: string, cfg: Config): (admitted: bool)
    ensures admitted <==> Truthy(Str(key)) && cfg.clientSharedKey.Some? && cfg.clientSharedKey.value == key
    ensures cfg.clientSharedKey.None? ==> !admitted
    ensures key == "" ==> !admitted
  {
    key != "" && cfg.clientSharedKey == Some(key)
  }

  // ----- Body -----

  /** `(req.body || {})[name]`: only an object body has the fields. */
  function Field(body: JsValue, name: string): (v: JsValue)
    ensures (body.Obj? && name in body.props) ==> v == body.props[name]
    ensures !(body.Obj? && name in body.props) ==> v == Undefined
  {
    if body.Obj? && name in body.props then body.props[name] else Undefined
  }

  /** A destructuring default: used only when the field is `undefined`. */
  function OrDefault(v: JsValue, default: string): JsValue {
    if v.Undefined? then Str(default) else v
  }

  /** The fields of the body after the destructuring defaults. A field that
      is present, even as `null` or "", is kept as it is. */
  function ReadBody(body: JsValue): (u: Update)
    ensures u.json == Field(body, "json") && u.message == Field(body, "message")
    ensures Field(body, "owner").Undefined? ==> u.owner == Str("synergytao")
    ensures Field(body, "repo").Undefined? ==> u.repo == Str("synergytaohub-directory")
    ensures Field(body, "path").Undefined? ==> u.path == Str("data/directory.json")
    ensures Field(body, "branch").Undefined? ==> u.branch == Str("main")
    ensures !Field(body, "owner").Undefined? ==> u.owner == Field(body, "owner")
    ensures !Field(body, "repo").Undefined? ==> u.repo == Field(body, "repo")
    ensures !Field(body, "path").Undefined? ==> u.path == Field(body, "path")
    ensures !Field(body, "branch").Undefined? ==> u.branch == Field(body, "branch")
  {
    Update(
      Field(body, "json"),
      Field(body, "message"),
      OrDefault(Field(body, "owner"), "synergytao"),
      OrDefault(Field(body, "repo"), "synergytaohub-directory"),
      OrDefault(Field(body, "path"), "data/directory.json"),
      OrDefault(Field(body, "branch"), "main"))
  }

  /** The commit message: the supplied one when it is truthy, otherwise
      one generated from the path, whose conversion to a string may throw. */
  function CommitMessage(u: Update): (m: Attempt<JsValue>)
    ensures Truthy(u.message) ==> m == Done(u.message)
    ensures m.Threw? <==> !Truthy(u.message) && !Convertible(u.path)
    ensures m.Threw? ==> m.error == ToPrimitiveError
    ensures !Truthy(u.message) && m.Done? ==>
              m.value == Str("Update " + ToString(u.path).value + " via directory admin")
    ensures m.Done? ==> Truthy(m.value)
  {
    if Truthy(u.message) then Done(u.message)
    else
      match ToString(u.path)
      case Threw(e) => Threw(e)
      case Done(p) => Done(Str("Update " + p + " via directory admin"))
  }

  /** The location fields in the order the GET URL interpolates them:
      `owner`, `repo`, then `path` and `branch` through `encodeURIComponent`. */
  function UrlFields(u: Update): seq<JsValue> {
    [u.owner, u.repo, u.path, u.branch]
  }

  /** Every location field converts to a string, so building the URLs
      does not throw. */
  predicate LocationConvertible(u: Update) {
    Convertible(u.owner) && Convertible(u.repo) && Convertible(u.path) && Convertible(u.branch)
  }

  /** The commit message and the GET URL, the steps before the first call:
      they throw, with the conversion's TypeError, exactly when a location
      field cannot be converted, and give the commit message otherwise. */
  function Prepare(u: Update): (r: Attempt<JsValue>)
    ensures r.Threw? <==> !LocationConvertible(u)
    ensures r.Threw? ==> r.error == ToPrimitiveError
    ensures r.Done? ==> CommitMessage(u) == Done(r.value)
  {
    match CommitMessage(u)
    case Threw(e) => Threw(e)
    case Done(message) =>
      match Interpolate(UrlFields(u))
      case Threw(e) => Threw(e)
      case Done(_) =>
        assert Convertible(UrlFields(u)[0]) && Convertible(UrlFields(u)[1]);
        assert Convertible(UrlFields(u)[2]) && Convertible(UrlFields(u)[3]);
        Done(message)
  }

  /** With neither a path nor a message in the body, the commit message
      names the default file. */
  lemma DefaultCommitMessage(body: JsValue)
    requires Field(body, "path").Undefined? && !Truthy(Field(body, "message"))
    ensures CommitMessage(ReadBody(body)) == Done(Str("Update data/directory.json via directory admin"))
  {
    var u := ReadBody(body);
    assert u.path == Str("data/directory.json") && !Truthy(u.message);
    DefaultMessageText();
  }

  lemma DefaultMessageText()
    ensures "Update " + "data/directory.json" + " via directory admin"
            == "Update data/directory.json via directory admin"
  {
  }

  /** The text to store: a string `json` as it is, anything else serialized. */
  function ContentOf(json: JsValue): (c: Content)
    ensures c.Verbatim? <==> json.Str?
    ensures json.Str? ==> c.text == json.s
    ensures !json.Str? ==> c.value == json
  {
    if json.Str? then Verbatim(json.s) else Serialized(json)
  }

  // ----- The two outbound calls -----

  /** The revision lookup for the body's location: it reads `path` at the
      ref `branch` and is authorized with the configured token. */
  function GetFor(u: Update, cfg: Config): (get: Call)
    ensures get.Get?
    ensures get.owner == u.owner && get.repo == u.repo && get.path == u.path
    ensures get.ref == u.branch && get.token == cfg.githubToken
  {
    Get(u.owner, u.repo, u.path, u.branch, cfg.githubToken)
  }

  /** The conditional write for the body's location, tagged with `sha`:
      it writes the very location and branch the lookup `GetFor` reads,
      with the same token, the commit message and the content of `json`. */
  function PutFor(u: Update, message: JsValue, cfg: Config, sha: JsValue): (put: Call)
    ensures put.Put?
    ensures var get := GetFor(u, cfg);
            && put.owner == get.owner && put.repo == get.repo && put.path == get.path
            && put.branch == get.ref && put.token == get.token
    ensures put.sha == sha && put.message == message && put.content == ContentOf(u.json)
  {
    Put(u.owner, u.repo, u.path, message, ContentOf(u.json), sha, u.branch, cfg.githubToken)
  }

  /** `out.commit && out.commit.sha`. */
  function CommitSha(out: JsValue): (r: Attempt<JsValue>)
    ensures r.Threw? <==> (out.Undefined? || out.Null?)
    ensures r.Done? && !Truthy(Field(out, "commit")) ==> r.value == Field(out, "commit")
    ensures r.Done? && Truthy(Field(out, "commit")) ==> r.value == Field(Field(out, "commit"), "sha")
  {
    match Member(out, "commit")
    case Threw(e) => Threw(e)
    case Done(commit) => if !Truthy(commit) then Done(commit) else Member(commit, "sha")
  }

  /** The success body `{ok: true, commit}`: an object with exactly the
      keys `ok` (true) and `commit`. */
  function Success(commit: JsValue): (body: JsValue)
    ensures body.Obj? && body.props.Keys == {"ok", "commit"}
    ensures body.props["ok"] == Bool(true) && body.props["commit"] == commit
    ensures Truthy(Field(body, "ok"))
  {
    Obj(map["ok" := Bool(true), "commit" := commit])
  }

  /** A PUT is the write that belongs to a GET: the same location and
      token, the branch the GET read, and the revision the GET's answer
      carries. */
  predicate PutFollowsGet(get: Call, put: Call, answer: Call -> Attempt<Reply>) {
    && get.Get? && put.Put?
    && put.owner == get.owner && put.repo == get.repo && put.path == get.path
    && put.branch == get.ref && put.token == get.token
    && answer(get).Done? && answer(get).value.ok
    && answer(get).value.json.Done?
    && Member(answer(get).value.json.value, "sha") == Done(put.sha)
  }

  /** The rest of the request once the store has answered the PUT. */
  function AfterPut(calls: seq<Call>, reply: Attempt<Reply>): (o: Outcome)
    ensures o.calls == calls
    ensures o.Returned? ==> o.status in {200, 500}
    ensures o.Returned? && o.status == 200 ==> reply.Done? && reply.value.ok
  {
    match reply
    case Threw(e) => Raised(e, calls)
    case Done(putRes) =>
      if !putRes.ok then
        match putRes.text
        case Threw(e) => Raised(e, calls)
        case Done(t) => Returned(500, TextBody("GitHub PUT failed: " + t), calls)
      else
        match putRes.json
        case Threw(e) => Raised(e, calls)
        case Done(out) =>
          match CommitSha(out)
          case Threw(e) => Raised(e, calls)
          case Done(commit) => Returned(200, JsonBody(Success(commit)), calls)
  }

  /** The outbound part of the request: the GET for the body's location,
      then, only after an ok GET whose answer carries a revision, the PUT
      that belongs to it. */
  function AfterGet(u: Update, message: JsValue, cfg: Config, answer: Call -> Attempt<Reply>): (o: Outcome)
    ensures 1 <= |o.calls| <= 2 && o.calls[0] == GetFor(u, cfg)
    ensures |o.calls| == 2 ==> PutFollowsGet(o.calls[0], o.calls[1], answer)
    ensures forall i :: 0 <= i < |o.calls| ==> o.calls[i].token == cfg.githubToken
    ensures o.Returned? ==> o.status in {200, 500}
    ensures o.Returned? && o.status == 200 ==>
              |o.calls| == 2 && answer(o.calls[1]).Done? && answer(o.calls[1]).value.ok
  {
    var get := GetFor(u, cfg);
    match answer(get)
    case Threw(e) => Raised(e, [get])
    case Done(getRes) =>
      if !getRes.ok then
        match getRes.text
        case Threw(e) => Raised(e, [get])
        case Done(t) => Returned(500, TextBody("GitHub GET failed: " + t), [get])
      else
        match getRes.json
        case Threw(e) => Raised(e, [get])
        case Done(current) =>
          match Member(current, "sha")
          case Threw(e) => Raised(e, [get])
          case Done(sha) =>
            var put := PutFor(u, message, cfg, sha);
            AfterPut([get, put], answer(put))
  }

  /** The guarded part of a POST: authentication, body check, commit
      message and URL, GET, PUT. */
  function Guard(req: Request, cfg: Config, answer: Call -> Attempt<Reply>): (o: Outcome)
    ensures o.calls != [] ==>
              && Authorized(ProvidedKey(req.headers), cfg)
              && Truthy(ReadBody(req.body).json)
              && LocationConvertible(ReadBody(req.body))
              && o.calls == AfterGet(ReadBody(req.body), Prepare(ReadBody(req.body)).value, cfg, answer).calls
    ensures o.Returned? ==> o.status in {200, 400, 401, 500}
  {
    if !Authorized(ProvidedKey(req.headers), cfg) then Returned(401, TextBody("Unauthorized"), [])
    else
      var u := ReadBody(req.body);
      if !Truthy(u.json) then Returned(400, TextBody("Bad Request: include { json }"), [])
      else
        match Prepare(u)
        case Threw(e) => Raised(e, [])
        case Done(message) => AfterGet(u, message, cfg, answer)
  }

  /** `err?.message || String(err)`: the message when it is not empty,
      otherwise the exception's string form. */
  function ErrorText(e: Thrown): (text: string)
    ensures e.message != "" ==> text == e.message
    ensures e.message == "" ==> text == e.description
  {
    if e.message != "" then e.message else e.description
  }

  /** One request from start to end: the reference definition of the handler.
      Outbound calls happen only for an authenticated POST with a `json`
      field; there are at most two; the first is the GET for the body's
      location and the second, if any, is the PUT that belongs to it. */
  function Pipeline(req: Request, cfg: Config, answer: Call -> Attempt<Reply>): (x: Exit)
    ensures |x.calls| <= 2
    ensures x.calls != [] ==>
              && req.httpMethod == "POST"
              && Authorized(ProvidedKey(req.headers), cfg)
              && Truthy(ReadBody(req.body).json)
              && LocationConvertible(ReadBody(req.body))
              && x.calls[0] == GetFor(ReadBody(req.body), cfg)
    ensures |x.calls| == 2 ==> PutFollowsGet(x.calls[0], x.calls[1], answer)
    ensures forall i :: 0 <= i < |x.calls| ==> x.calls[i].token == cfg.githubToken
    ensures x.status in {200, 204, 400, 401, 405, 500}
    ensures x.status == 200 ==> |x.calls| == 2 && answer(x.calls[1]).Done? && answer(x.calls[1]).value.ok
  {
    if req.httpMethod == "OPTIONS" then Exit(204, TextBody(""), [])
    else if req.httpMethod != "POST" then Exit(405, TextBody("Only POST allowed"), [])
    else
      match Guard(req, cfg, answer)
      case Returned(status, body, calls) => Exit(status, body, calls)
      case Raised(e, calls) => Exit(500, TextBody("Server error: " + ErrorText(e)), calls)
  }

  // ----- Properties of single paths through the pipeline -----

  /** A preflight request is answered 204 with an empty body and no call. */
  lemma PreflightAnswered(req: Request, cfg: Config, answer: Call -> Attempt<Reply>)
    requires req.httpMethod == "OPTIONS"
    ensures Pipeline(req, cfg, answer) == Exit(204, TextBody(""), [])
  {
  }

  /** Any method but OPTIONS and POST is refused with 405 and no call. */
  lemma OnlyPostAllowed(req: Request, cfg: Config, answer: Call -> Attempt<Reply>)
    requires req.httpMethod != "OPTIONS" && req.httpMethod != "POST"
    ensures Pipeline(req, cfg, answer) == Exit(405, TextBody("Only POST allowed"), [])
  {
  }

  /** A POST without the right key is refused with 401 and no call. */
  lemma UnauthorizedMakesNoCall(req: Request, cfg: Config, answer: Call -> Attempt<Reply>)
    requires req.httpMethod == "POST"
    requires ProvidedKey(req.headers) == "" || cfg.clientSharedKey != Some(ProvidedKey(req.headers))
    ensures Pipeline(req, cfg, answer) == Exit(401, TextBody("Unauthorized"), [])
  {
  }

  /** With no shared key configured, every POST is refused. */
  lemma UnsetKeyRejectsEveryPost(req: Request, cfg: Config, answer: Call -> Attempt<Reply>)
    requires req.httpMethod == "POST" && cfg.clientSharedKey.None?
    ensures Pipeline(req, cfg, answer) == Exit(401, TextBody("Unauthorized"), [])
  {
  }

  /** An authenticated POST whose `json` field is missing or falsy is
      refused with 400 and no call. */
  lemma MissingJsonRejected(req: Request, cfg: Config, answer: Call -> Attempt<Reply>)
    requires req.httpMethod == "POST" && Authorized(ProvidedKey(req.headers), cfg)
    requires !Truthy(Field(req.body, "json"))
    ensures Pipeline(req, cfg, answer) == Exit(400, TextBody("Bad Request: include { json }"), [])
  {
  }

  /** A location field that cannot be converted to a string (an object
      with its own `toString` property) makes the commit message or the
      URL throw before any call: 500 "Server error: " and no call. */
  lemma UnconvertibleLocationMakesNoCall(req: Request, cfg: Config, answer: Call -> Attempt<Reply>)
    requires req.httpMethod == "POST" && Authorized(ProvidedKey(req.headers), cfg)
    requires Truthy(Field(req.body, "json"))
    requires !LocationConvertible(ReadBody(req.body))
    ensures Pipeline(req, cfg, answer)
            == Exit(500, TextBody("Server error: " + ToPrimitiveError.message), [])
  {
    var u := ReadBody(req.body);
    assert Prepare(u) == Threw(ToPrimitiveError);
    assert Guard(req, cfg, answer) == Raised(ToPrimitiveError, []);
  }

  /** When the GET is not ok, nothing is written: the only call is the
      GET, and the store's error text is passed on with 500. */
  lemma FailedGetStops(req: Request, cfg: Config, answer: Call -> Attempt<Reply>, t: string)
    requires req.httpMethod == "POST" && Authorized(ProvidedKey(req.headers), cfg)
    requires Truthy(Field(req.body, "json")) && LocationConvertible(ReadBody(req.body))
    requires var get := GetFor(ReadBody(req.body), cfg);
             answer(get).Done? && !answer(get).value.ok && answer(get).value.text == Done(t)
    ensures Pipeline(req, cfg, answer)
            == Exit(500, TextBody("GitHub GET failed: " + t), [GetFor(ReadBody(req.body), cfg)])
  {
  }

  /** No PUT follows a GET that failed or threw. */
  lemma NoPutWithoutOkGet(req: Request, cfg: Config, answer: Call -> Attempt<Reply>)
    requires var get := GetFor(ReadBody(req.body), cfg);
             answer(get).Threw? || !answer(get).value.ok
    ensures |Pipeline(req, cfg, answer).calls| <= 1
  {
  }

  /** The request gets as far as the PUT, whose revision tag is `sha`:
      an authenticated POST with a `json` field and a location that
      converts to strings, whose GET came back ok with a body from which
      `sha` was read. */
  predicate ReachesPut(req: Request, cfg: Config, answer: Call -> Attempt<Reply>, sha: JsValue) {
    var get := GetFor(ReadBody(req.body), cfg);
    && req.httpMethod == "POST" && Authorized(ProvidedKey(req.headers), cfg)
    && Truthy(Field(req.body, "json")) && LocationConvertible(ReadBody(req.body))
    && answer(get).Done? && answer(get).value.ok && answer(get).value.json.Done?
    && Member(answer(get).value.json.value, "sha") == Done(sha)
  }

  /** The PUT a request makes once it has read `sha`. */
  function PutOf(req: Request, cfg: Config, sha: JsValue): Call
    requires LocationConvertible(ReadBody(req.body))
  {
    var u := ReadBody(req.body);
    PutFor(u, CommitMessage(u).value, cfg, sha)
  }

  /** Once a request reaches the PUT, the GET and that PUT are its calls,
      and the rest of the request depends only on the PUT's answer. */
  lemma ReachedPutDecides(req: Request, cfg: Config, answer: Call -> Attempt<Reply>, sha: JsValue)
    requires ReachesPut(req, cfg, answer, sha)
    ensures var calls := [GetFor(ReadBody(req.body), cfg), PutOf(req, cfg, sha)];
            Guard(req, cfg, answer) == AfterPut(calls, answer(calls[1]))
  {
    var u := ReadBody(req.body);
    var message := CommitMessage(u).value;
    assert Prepare(u) == Done(message);
    assert Guard(req, cfg, answer) == AfterGet(u, message, cfg, answer);
  }

  /** After an ok GET whose answer carries a revision, the GET and then the
      PUT are issued, the PUT carrying exactly that revision, the same
      branch, the commit message and the content of `json`. */
  lemma PutCarriesRevision(req: Request, cfg: Config, answer: Call -> Attempt<Reply>, sha: JsValue)
    requires ReachesPut(req, cfg, answer, sha)
    ensures var x := Pipeline(req, cfg, answer);
            && x.calls == [GetFor(ReadBody(req.body), cfg), PutOf(req, cfg, sha)]
            && x.calls[1].sha == sha
            && x.calls[1].branch == ReadBody(req.body).branch
            && x.calls[1].message == CommitMessage(ReadBody(req.body)).value
            && x.calls[1].content == ContentOf(Field(req.body, "json"))
  {
    ReachedPutDecides(req, cfg, answer, sha);
  }

  /** A PUT that is not ok yields 500 with the store's error text. */
  lemma FailedPutReported(req: Request, cfg: Config, answer: Call -> Attempt<Reply>,
                          sha: JsValue, t: string)
    requires ReachesPut(req, cfg, answer, sha)
    requires var put := PutOf(req, cfg, sha);
             answer(put).Done? && !answer(put).value.ok && answer(put).value.text == Done(t)
    ensures Pipeline(req, cfg, answer).status == 500
    ensures Pipeline(req, cfg, answer).body == TextBody("GitHub PUT failed: " + t)
  {  ReachedPutDecides(req, cfg, answer, sha);
  }

  /** An ok PUT whose answer parses yields 200 with `{ok: true, commit}`,
      where `commit` is `out.commit && out.commit.sha`. */
  lemma SuccessReported(req: Request, cfg: Config, answer: Call -> Attempt<Reply>,
                        sha: JsValue, out: JsValue, commit: JsValue)
    requires ReachesPut(req, cfg, answer, sha)
    requires var put := PutOf(req, cfg, sha);
             answer(put).Done? && answer(put).value.ok && answer(put).value.json == Done(out)
    requires CommitSha(out) == Done(commit)
    ensures Pipeline(req, cfg, answer).status == 200
    ensures Pipeline(req, cfg, answer).body == JsonBody(Success(commit))
  {  ReachedPutDecides(req, cfg, answer, sha);
  }

  /** Whatever the guarded part throws becomes 500 "Server error: ",
      keeping the calls made before the throw. */
  lemma ExceptionReported(req: Request, cfg: Config, answer: Call -> Attempt<Reply>)
    requires req.httpMethod == "POST" && Guard(req, cfg, answer).Raised?
    ensures var g := Guard(req, cfg, answer);
            Pipeline(req, cfg, answer) == Exit(500, TextBody("Server error: " + ErrorText(g.error)), g.calls)
  {
  }

  // ----- The handler itself -----

  /** The response object: its header table, status code and body. */
  class Response {
    var headers: map<string, string>
    var statusCode: int
    var body: Payload

    /** A fresh response: no headers, the default status 200, nothing sent. */
    constructor ()
      ensures headers == map[] && statusCode == 200 && body == Unsent
    {
      headers := map[];
      statusCode := 200;
      body := Unsent;
    }

    /** `res.setHeader(name, value)`. */
    method SetHeader(name: string, value: string)
      modifies this
      ensures headers == old(headers)[name := value]
      ensures statusCode == old(statusCode) && body == old(body)
    {
      headers := headers[name := value];
    }

    /** `res.status(code)`. */
    method Status(code: int)
      modifies this
      ensures statusCode == code
      ensures headers == old(headers) && body == old(body)
    {
      statusCode := code;
    }

    /** `res.send(text)`. */
    method Send(text: string)
      modifies this
      ensures body == TextBody(text)
      ensures headers == old(headers) && statusCode == old(statusCode)
    {
      body := TextBody(text);
    }

    /** `res.json(value)`. */
    method Json(value: JsValue)
      modifies this
      ensures body == JsonBody(value)
      ensures headers == old(headers) && statusCode == old(statusCode)
    {
      body := JsonBody(value);
    }
  }

  /** The content store as the handler sees it: every call is recorded in
      `trace`, in order, and answered by `answer`. */
  class Remote {
    const answer: Call -> Attempt<Reply>
    var trace: seq<Call>

    constructor (answer: Call -> Attempt<Reply>)
      ensures this.answer == answer && trace == []
    {
      this.answer := answer;
      trace := [];
    }

    /** `await fetch(...)`. */
    method Fetch(call: Call) returns (reply: Attempt<Reply>)
      modifies this
      ensures trace == old(trace) + [call]
      ensures reply == answer(call)
    {
      trace := trace + [call];
      reply := answer(call);
    }
  }

  /** `withCORS(res, origin)`. */
  method WithCors(res: Response, origin: string)
    modifies res
    ensures res.headers == CorsTable(old(res.headers), origin)
    ensures res.statusCode == old(res.statusCode) && res.body == old(res.body)
  {
    res.SetHeader("Access-Control-Allow-Origin", origin);
    res.SetHeader("Vary", "Origin");
    res.SetHeader("Access-Control-Allow-Methods", "OPTIONS, POST");
    res.SetHeader("Access-Control-Allow-Headers", "Content-Type, Authorization, X-API-Key");
    res.SetHeader("Access-Control-Max-Age", "86400");
  }

  /** The `try` block of the handler. It returns the exception it stopped
      at, if any, leaving the response untouched in that case. */
  method TryUpdate(req: Request, cfg: Config, remote: Remote, res: Response)
    returns (thrown: Option<Thrown>)
    modifies res, remote
    ensures remote.trace == old(remote.trace) + Guard(req, cfg, remote.answer).calls
    ensures res.headers == old(res.headers)
    ensures match Guard(req, cfg, remote.answer)
            case Returned(status, body, _) =>
              thrown == None && res.statusCode == status && res.body == body
            case Raised(e, _) =>
              thrown == Some(e) && res.statusCode == old(res.statusCode) && res.body == old(res.body)
  {
    var providedKey := ProvidedKey(req.headers);
    if !Authorized(providedKey, cfg) {
      res.Status(401);
      res.Send("Unauthorized");
      return None;
    }

    var u := ReadBody(req.body);
    if !Truthy(u.json) {
      res.Status(400);
      res.Send("Bad Request: include { json }");
      return None;
    }

    var message := CommitMessage(u);
    if message.Threw? {
      return Some(message.error);
    }
    var location := Interpolate(UrlFields(u));
    if location.Threw? {
      return Some(location.error);
    }
    thrown := GetThenPut(u, message.value, cfg, remote, res);
  }

  /** The two outbound calls of the `try` block and the response to them:
      it sends what `AfterGet` returns, or stops at the exception
      `AfterGet` raises with status and body untouched. */
  method GetThenPut(u: Update, message: JsValue, cfg: Config, remote: Remote, res: Response)
    returns (thrown: Option<Thrown>)
    modifies res, remote
    ensures remote.trace == old(remote.trace) + AfterGet(u, message, cfg, remote.answer).calls
    ensures res.headers == old(res.headers)
    ensures match AfterGet(u, message, cfg, remote.answer)
            case Returned(status, body, _) =>
              thrown == None && res.statusCode == status && res.body == body
            case Raised(e, _) =>
              thrown == Some(e) && res.statusCode == old(res.statusCode) && res.body == old(res.body)
  {
    var get := GetFor(u, cfg);
    var getRes := remote.Fetch(get);
    if getRes.Threw? {
      return Some(getRes.error);
    }
    if !getRes.value.ok {
      var t := getRes.value.text;
      if t.Threw? {
        return Some(t.error);
      }
      res.Status(500);
      res.Send("GitHub GET failed: " + t.value);
      return None;
    }
    var current := getRes.value.json;
    if current.Threw? {
      return Some(current.error);
    }
    var sha := Member(current.value, "sha");
    if sha.Threw? {
      return Some(sha.error);
    }

    var put := PutFor(u, message, cfg, sha.value);
    var putRes := remote.Fetch(put);
    if putRes.Threw? {
      return Some(putRes.error);
    }
    if !putRes.value.ok {
      var t := putRes.value.text;
      if t.Threw? {
        return Some(t.error);
      }
      res.Status(500);
      res.Send("GitHub PUT failed: " + t.value);
      return None;
    }
    var out := putRes.value.json;
    if out.Threw? {
      return Some(out.error);
    }
    var commit := CommitSha(out.value);
    if commit.Threw? {
      return Some(commit.error);
    }
    res.Status(200);
    res.Json(Success(commit.value));
    return None;
  }

  /** The request handler. Every exit carries the five CORS headers; the
      status, body and outbound calls are those of `Pipeline`. */
  method Handler(req: Request, cfg: Config, remote: Remote, res: Response)
    modifies res, remote
    ensures HasCors(res.headers)
    ensures res.headers == CorsTable(old(res.headers), "*")
    ensures var x := Pipeline(req, cfg, remote.answer);
            && res.statusCode == x.status
            && res.body == x.body
            && remote.trace == old(remote.trace) + x.calls
  {
    WithCors(res, "*");

    if req.httpMethod == "OPTIONS" {
      res.Status(204);
      res.Send("");
      return;
    }
    if req.httpMethod != "POST" {
      res.Status(405);
      res.Send("Only POST allowed");
      return;
    }

    var thrown := TryUpdate(req, cfg, remote, res);
    if thrown.Some? {
      CorsTableIdempotent(old(res.headers));
      WithCors(res, "*");
      res.Status(500);
      res.Send("Server error: " + ErrorText(thrown.value));
    }
  }
}
