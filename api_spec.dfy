/** The behaviour of the mobile API client (TodoMobile/app/services/api.ts) as functions over
    values: the request hook that attaches the bearer token, the error hook with its 520 retry,
    401 refresh-and-replay and message normalisation, and the auth and todo services built on top.

    The outside world is a `World` value: the token store (AsyncStorage, two keys), the network as
    a script of replies the server will give, one per request sent (an exhausted script answers
    nothing, like an unreachable host), a log of every exchange, and the list of backoff delays
    waited, in milliseconds. Every function returns the new world beside its result. */
module ApiSpec {
  import opened Wrappers
  import opened Types

  const AccessKey: string := "access_token"
  const RefreshKey: string := "refresh_token"
  const AuthorizationHeader: string := "Authorization"

  /** The default `retryCount` of `retryRequest`. */
  const MaxRetries: nat := 3
  /** `maxRetries` of the `updateTodo` and `deleteTodo` loops. */
  const MaxAttempts: nat := 3

  const SessionExpired: string := "Session expired. Please login again."
  const NoRefreshToken: string := "No refresh token found"
  const PermissionDenied: string := "You do not have permission to perform this action"
  const NotFound: string := "The requested resource was not found"
  const ServerError: string := "Server error occurred. Please try again later"
  const ConnectionError: string := "Server connection error. Please try again later"
  const NetworkError: string := "Network error. Please check your internet connection"

  /** Headers every request of the `api` instance starts with. */
  const DefaultHeaders: map<string, string> :=
    map["Content-Type" := "application/json", "Accept" := "application/json", "User-Agent" := "TodoMobile/1.0"]

  // ---------------------------------------------------------------- data

  datatype Verb = Get | Post | Patch | Delete

  /** The endpoints below the base URL `/api`. */
  datatype Path = LoginPath | RefreshPath | RegisterPath | TodosPath | TodoPath(id: int) | TogglePath(id: int)

  datatype RequestBody =
    | NoBody
    | CredentialsBody(username: string, password: string)
    | RegistrationBody(username: string, email: string, password: string)
    | RefreshBody(refresh: string)
    | TodoFields(json: string)   // the fields of a new todo or a partial update, serialised

  /** What a parsed JSON body decodes to, for the shapes the client reads fields from. */
  datatype Decoded =
    | Opaque                          // any other object or array
    | AuthData(auth: AuthResponse)    // {refresh, access, user}
    | AccessData(access: string)      // {access}, the refresh endpoint's usual answer
    | TodoListData(todos: seq<Todo>)
    | TodoData(todo: Todo)
    | UserData(user: User)

  /** The `JSON.stringify` text of an object or array, which is never empty. */
  type JsonText = s: string | s != "" witness "{}"

  /** `response.data`: nothing, a string, or a JSON object/array with its text. */
  datatype Body = Absent | Text(text: string) | Json(json: JsonText, decoded: Decoded)

  datatype Response = Response(status: nat, data: Body)

  /** What the network does with one request: a response with a status, or no response at all
      (unreachable host, timeout). */
  datatype Reply = Answer(response: Response) | NoAnswer

  /** An axios request config: the target, the headers, and the two fields the error hook adds,
      `_retryCount` (absent counts as 0) and `_retry` (absent counts as false). */
  datatype Request = Request(
    verb: Verb, path: Path, body: RequestBody, headers: map<string, string>,
    retryCount: nat, retried: bool)

  /** One request as it went out, with the reply it got. */
  datatype Exchange = Exchange(request: Request, reply: Reply)

  datatype World = World(tokens: map<string, string>, script: seq<Reply>, log: seq<Exchange>, waits: seq<nat>)

  /** What a rejected promise carries: an axios error (message, and the response if one came), an
      `Error` thrown by the client's own code, or the failure of reading a token field from a
      success body that has none. */
  datatype Fault = AxiosError(message: string, response: Option<Response>) | PlainError(message: string) | BadShape

  datatype Result<T> = Success(value: T) | Failure(fault: Fault)

  /** The outcome of a pass through the pipeline, the config object as it is afterwards, and the world. */
  datatype Step = Step(result: Result<Response>, request: Request, world: World)

  /** The outcome of a service call and the world afterwards. */
  datatype Call<T> = Call(result: Result<T>, world: World)

  // ---------------------------------------------------------------- helpers

  function Lookup(tokens: map<string, string>, key: string): Option<string> {
    if key in tokens then Some(tokens[key]) else None
  }

  /** JavaScript truthiness of a stored token: `null` and `""` are falsy. */
  predicate Present(token: Option<string>) {
    token.Some? && token.value != ""
  }

  /** Both `removeItem` calls, access token first. */
  function ClearTokens(tokens: map<string, string>): map<string, string> {
    tokens - {AccessKey} - {RefreshKey}
  }

  function Bearer(token: string): string {
    "Bearer " + token
  }

  /** axios' default `validateStatus`: 2xx resolves, anything else rejects. */
  predicate IsSuccess(status: nat) {
    200 <= status < 300
  }

  function Pow2(n: nat): (r: nat)
    ensures r >= 1
  {
    if n == 0 then 1 else 2 * Pow2(n - 1)
  }

  /** The delay before the `count`-th retry of a 520: `Math.pow(2, count) * 1000` milliseconds. */
  function Backoff(count: nat): nat {
    Pow2(count) * 1000
  }

  function Digit(d: nat): char
    requires d < 10
  {
    "0123456789"[d]
  }

  function NatToString(n: nat): string
    decreases n
  {
    if n < 10 then [Digit(n)] else NatToString(n / 10) + [Digit(n % 10)]
  }

  /** The message axios gives an error for a non-2xx status. */
  function DefaultMessage(status: nat): string {
    "Request failed with status code " + NatToString(status)
  }

  /** JavaScript truthiness of `response.data`. */
  predicate Truthy(data: Body) {
    match data
    case Absent => false
    case Text(t) => t != ""
    case Json(_, _) => true
  }

  /** `typeof data === 'string' ? data : JSON.stringify(data)`. */
  function Stringify(data: Body): string {
    match data
    case Absent => ""
    case Text(t) => t
    case Json(j, _) => j
  }

  function NewRequest(verb: Verb, path: Path, body: RequestBody): Request {
    Request(verb, path, body, DefaultHeaders, 0, false)
  }

  function RefreshRequest(refresh: string): Request {
    NewRequest(Post, RefreshPath, RefreshBody(refresh))
  }

  /** `data.access`, when the body has that field. */
  function AccessField(data: Body): Option<string> {
    if data.Json? then
      match data.decoded
      case AuthData(a) => Some(a.access)
      case AccessData(access) => Some(access)
      case _ => None
    else None
  }

  /** `response.data.access` of a successful call, when the body has that field. */
  function AccessOf(result: Result<Response>): Option<string> {
    if result.Success? then AccessField(result.value.data) else None
  }

  /** `axios.isAxiosError(e) ? new Error(e.message || fallback) : e`, the services' catch blocks. */
  function Rewrap(fault: Fault, fallback: string): Fault {
    match fault
    case AxiosError(message, _) => PlainError(if message != "" then message else fallback)
    case _ => fault
  }

  /** `error.response?.status === 520`. */
  predicate Is520(fault: Fault) {
    fault.AxiosError? && fault.response.Some? && fault.response.value.status == 520
  }

  // ------------------------------------------------- what a pass may change

  predicate IsSuffix<T(==)>(a: seq<T>, b: seq<T>) {
    |a| <= |b| && a == b[|b| - |a|..]
  }

  /** Keys other than the two token keys. */
  function OtherKeys(tokens: map<string, string>): map<string, string> {
    tokens - {AccessKey, RefreshKey}
  }

  /** The world only moves forward: replies are consumed from the front, the log and the delays
      only grow, and no storage key other than the two tokens is touched. */
  predicate Advances(w: World, w': World) {
    && IsSuffix(w'.script, w.script)
    && w.log <= w'.log
    && w.waits <= w'.waits
    && OtherKeys(w'.tokens) == OtherKeys(w.tokens)
  }

  function Max(a: nat, b: nat): nat {
    if a < b then b else a
  }

  /** How a config object may have changed after a pass: same method, path and body; the retry
      counter only grows and never past `MaxRetries` unless it already was; the refresh mark is
      never taken back. */
  predicate Evolves(req: Request, req': Request) {
    && req'.verb == req.verb && req'.path == req.path && req'.body == req.body
    && req.retryCount <= req'.retryCount <= Max(req.retryCount, MaxRetries)
    && (req.retried ==> req'.retried)
  }

  function Last<T>(s: seq<T>): T
    requires s != []
  {
    s[|s| - 1]
  }

  /** A success is the reply to the last request sent. */
  predicate SuccessIsLastReply(s: Step) {
    s.result.Success? ==>
      && s.world.log != []
      && Last(s.world.log).reply == Answer(s.result.value)
      && IsSuccess(s.result.value.status)
  }

  // ---------------------------------------------------------------- the pipeline

  /** The request hook (api.ts:19-31): with an access token stored, `Authorization` becomes
      `Bearer <token>`; without one the config goes out unchanged. */
  function Authorize(req: Request, tokens: map<string, string>): (r: Request)
    ensures r.(headers := req.headers) == req
    ensures r.headers - {AuthorizationHeader} == req.headers - {AuthorizationHeader}
    ensures Present(Lookup(tokens, AccessKey)) ==>
      AuthorizationHeader in r.headers && r.headers[AuthorizationHeader] == "Bearer " + tokens[AccessKey]
    ensures !Present(Lookup(tokens, AccessKey)) ==> r == req
  {
    var token := Lookup(tokens, AccessKey);
    if Present(token) then req.(headers := req.headers[AuthorizationHeader := Bearer(token.value)]) else req
  }

  /** `api(config)`: the request hook, one exchange with the network, then either the response
      (2xx) or the error hook. */
  function Fetch(req: Request, w: World): (s: Step)
    decreases |w.script|, 2
    ensures |s.world.script| <= |w.script|
  {
    var sent := Authorize(req, w.tokens);
    var reply := if w.script == [] then NoAnswer else w.script[0];
    var w1 := w.(script := if w.script == [] then [] else w.script[1..],
                 log := w.log + [Exchange(sent, reply)]);
    if reply.Answer? && IsSuccess(reply.response.status) then Step(Success(reply.response), sent, w1)
    else OnError(sent, reply, w1)
  }

  /** The error hook (api.ts:64-143), in its order: 520 first, then a first 401 on this config,
      then normalisation of everything else. */
  function OnError(req: Request, reply: Reply, w: World): (s: Step)
    decreases |w.script| + (if reply.Answer? then 1 else 0), 1
    ensures |s.world.script| <= |w.script|
  {
    if reply.Answer? && reply.response.status == 520 then RetryRequest(req, reply.response, w)
    else if reply.Answer? && reply.response.status == 401 && !req.retried then
      RefreshAndReplay(req.(retried := true), w)
    else Normalise(req, reply, w)
  }

  /** `retryRequest` (api.ts:34-52): at `MaxRetries` the error is rejected unchanged; otherwise the
      counter goes up, the backoff for the new count is waited, and the same config is sent again. */
  function RetryRequest(req: Request, response: Response, w: World): (s: Step)
    decreases |w.script| + 1, 0
    ensures |s.world.script| <= |w.script|
  {
    if req.retryCount >= MaxRetries then
      Step(Failure(AxiosError(DefaultMessage(response.status), Some(response))), req, w)
    else
      var next := req.(retryCount := req.retryCount + 1);
      Fetch(next, w.(waits := w.waits + [Backoff(next.retryCount)]))
  }

  /** The 401 path (api.ts:84-106) on a config already marked `_retry`: without a refresh token, or
      when the refresh call fails, both tokens are removed and the session has expired; otherwise
      the new access token is stored, put on the config, and the config is sent again, its outcome
      returned as it is. The refresh call is a fresh, unmarked config through the same pipeline. */
  function RefreshAndReplay(marked: Request, w: World): (s: Step)
    requires marked.retried
    decreases |w.script| + 1, 0
    ensures |s.world.script| <= |w.script|
  {
    var refresh := Lookup(w.tokens, RefreshKey);
    if !Present(refresh) then
      Step(Failure(PlainError(SessionExpired)), marked, w.(tokens := ClearTokens(w.tokens)))
    else
      var r := Fetch(RefreshRequest(refresh.value), w);
      var access := AccessOf(r.result);
      if access.None? then
        Step(Failure(PlainError(SessionExpired)), marked, r.world.(tokens := ClearTokens(r.world.tokens)))
      else
        var w2 := r.world.(tokens := r.world.tokens[AccessKey := access.value]);
        Fetch(marked.(headers := marked.headers[AuthorizationHeader := Bearer(access.value)]), w2)
  }

  /** The `switch` on the status (api.ts:111-135), applied to the message axios gave the error. */
  function StatusMessage(response: Response, current: string): string {
    match response.status
    case 401 => current
    case 403 => PermissionDenied
    case 404 => NotFound
    case 500 => ServerError
    case 520 => ConnectionError
    case _ => if Truthy(response.data) then Stringify(response.data) else current
  }

  /** Normalisation (api.ts:109-142): a response gets its status message (and a 401 also loses both
      tokens); no response at all is a network error. The error is rejected. */
  function Normalise(req: Request, reply: Reply, w: World): (s: Step)
    ensures s.request == req && s.result.Failure? && s.result.fault.AxiosError?
    ensures s.world.(tokens := w.tokens) == w && OtherKeys(s.world.tokens) == OtherKeys(w.tokens)
  {
    match reply
    case NoAnswer => Step(Failure(AxiosError(NetworkError, None)), req, w)
    case Answer(response) =>
      var tokens := if response.status == 401 then ClearTokens(w.tokens) else w.tokens;
      var message := StatusMessage(response, DefaultMessage(response.status));
      Step(Failure(AxiosError(message, Some(response))), req, w.(tokens := tokens))
  }

  // ---------------------------------------------------------------- authService

  /** `authService.login` (api.ts:147-159): the tokens are written only after a success, the
      access token first; a body with an access token but no refresh token has already stored the
      access token when the second write fails. */
  function Login(username: string, password: string, w: World): Call<Body> {
    var s := Fetch(NewRequest(Post, LoginPath, CredentialsBody(username, password)), w);
    match s.result
    case Failure(f) => Call(Failure(Rewrap(f, "Login failed")), s.world)
    case Success(response) =>
      var access := AccessOf(s.result);
      if access.None? then Call(Failure(BadShape), s.world)
      else
        var w1 := s.world.(tokens := s.world.tokens[AccessKey := access.value]);
        if response.data.decoded.AuthData? then
          Call(Success(response.data), w1.(tokens := w1.tokens[RefreshKey := response.data.decoded.auth.refresh]))
        else Call(Failure(BadShape), w1)
  }

  /** `authService.refreshToken` (api.ts:161-180): fails before any request without a refresh
      token; on success writes the access token only. */
  function RefreshTokenCall(w: World): Call<Body> {
    var refresh := Lookup(w.tokens, RefreshKey);
    if !Present(refresh) then Call(Failure(PlainError(NoRefreshToken)), w)
    else
      var s := Fetch(RefreshRequest(refresh.value), w);
      var access := AccessOf(s.result);
      if s.result.Failure? then Call(Failure(Rewrap(s.result.fault, "Token refresh failed")), s.world)
      else if access.None? then Call(Failure(BadShape), s.world)
      else Call(Success(s.result.value.data), s.world.(tokens := s.world.tokens[AccessKey := access.value]))
  }

  /** `authService.register` (api.ts:182-192): no storage access of its own. */
  function Register(username: string, email: string, password: string, w: World): Call<Body> {
    var s := Fetch(NewRequest(Post, RegisterPath, RegistrationBody(username, email, password)), w);
    match s.result
    case Failure(f) => Call(Failure(Rewrap(f, "Registration failed")), s.world)
    case Success(response) => Call(Success(response.data), s.world)
  }

  /** Which of logout's two `removeItem` calls rejects, if any. */
  datatype StorageFault = NoFault | AccessRemovalFails | RefreshRemovalFails

  /** `authService.logout` (api.ts:194-201): the removals run in order; a rejection stops the rest
      and is swallowed, so logout itself never fails. */
  function Logout(tokens: map<string, string>, fault: StorageFault): (r: map<string, string>)
    ensures OtherKeys(r) == OtherKeys(tokens) && r.Keys <= tokens.Keys
    ensures fault == NoFault ==> AccessKey !in r && RefreshKey !in r
    ensures fault == AccessRemovalFails ==> r == tokens
    ensures fault == RefreshRemovalFails ==> r == tokens - {AccessKey}
  {
    match fault
    case AccessRemovalFails => tokens
    case RefreshRemovalFails => tokens - {AccessKey}
    case NoFault => tokens - {AccessKey} - {RefreshKey}
  }

  // ---------------------------------------------------------------- todoService

  /** `todoService.getTodos` (api.ts:205-213): every failure becomes one fixed message. */
  function GetTodos(w: World): Call<Body> {
    var s := Fetch(NewRequest(Get, TodosPath, NoBody), w);
    match s.result
    case Failure(_) => Call(Failure(PlainError("Failed to fetch todos. Please try again.")), s.world)
    case Success(response) => Call(Success(response.data), s.world)
  }

  /** `todoService.getTodo` (api.ts:215-226). */
  function GetTodo(id: int, w: World): Call<Body> {
    var s := Fetch(NewRequest(Get, TodoPath(id), NoBody), w);
    match s.result
    case Failure(f) => Call(Failure(Rewrap(f, "Failed to fetch todo")), s.world)
    case Success(response) => Call(Success(response.data), s.world)
  }

  /** `todoService.createTodo` (api.ts:228-236). */
  function CreateTodo(fields: string, w: World): Call<Body> {
    var s := Fetch(NewRequest(Post, TodosPath, TodoFields(fields)), w);
    match s.result
    case Failure(_) => Call(Failure(PlainError("Failed to create todo. Please try again.")), s.world)
    case Success(response) => Call(Success(response.data), s.world)
  }

  /** `todoService.toggleTodo` (api.ts:289-297): no retry loop. */
  function ToggleTodo(id: int, w: World): Call<Body> {
    var s := Fetch(NewRequest(Post, TogglePath(id), NoBody), w);
    match s.result
    case Failure(_) => Call(Failure(PlainError("Failed to toggle todo status. Please try again.")), s.world)
    case Success(response) => Call(Success(response.data), s.world)
  }

  /** The two operations with a service-level retry loop (api.ts:238-287). */
  datatype LoopOp = UpdateOp(id: int, fields: string) | DeleteOp(id: int)

  function LoopRequest(op: LoopOp): Request {
    match op
    case UpdateOp(id, fields) => NewRequest(Patch, TodoPath(id), TodoFields(fields))
    case DeleteOp(id) => NewRequest(Delete, TodoPath(id), NoBody)
  }

  /** The `try` block of one attempt: an update returns the body; a delete succeeds on status 204
      only, and any other success status throws inside the `try`. */
  function AttemptResult(op: LoopOp, r: Result<Response>): Result<Body> {
    match r
    case Failure(f) => Failure(f)
    case Success(response) =>
      if op.UpdateOp? then Success(response.data)
      else if response.status == 204 then Success(Absent)
      else Failure(PlainError("Failed to delete todo"))
  }

  /** The error thrown from the `catch` when no retry is made. */
  function GiveUpMessage(op: LoopOp): string {
    if op.UpdateOp? then "Failed to update todo. Please try again." else "Failed to delete todo. Please try again."
  }

  /** The error thrown after the `while` loop. */
  function ExhaustedMessage(op: LoopOp): string {
    if op.UpdateOp? then "Failed to update todo after multiple attempts." else "Failed to delete todo after multiple attempts."
  }

  /** The backoff of the service loops: `Math.pow(2, retryCount) * 1000` milliseconds. */
  function LoopBackoff(retryCount: nat): nat {
    Pow2(retryCount) * 1000
  }

  /** Outcome of a retry loop, with the value of its `retryCount` when it was left. */
  datatype LoopEnd = LoopEnd(result: Result<Body>, world: World, retryCount: nat)

  /** The `while (retryCount < maxRetries)` loop from a given `retryCount` on: each attempt is a
      fresh config through the whole pipeline; only a 520 error with retries left is retried. */
  function RetryLoop(op: LoopOp, retryCount: nat, w: World): (e: LoopEnd)
    decreases MaxAttempts - retryCount
  {
    if retryCount >= MaxAttempts then LoopEnd(Failure(PlainError(ExhaustedMessage(op))), w, retryCount)
    else
      var s := Fetch(LoopRequest(op), w);
      match AttemptResult(op, s.result)
      case Success(v) => LoopEnd(Success(v), s.world, retryCount)
      case Failure(f) =>
        if Is520(f) && retryCount < MaxAttempts - 1 then
          RetryLoop(op, retryCount + 1, s.world.(waits := s.world.waits + [LoopBackoff(retryCount)]))
        else LoopEnd(Failure(PlainError(GiveUpMessage(op))), s.world, retryCount)
  }

  /** A 520 failure on any but the last attempt waits and goes round the loop again. */
  lemma RetryLoopContinues(op: LoopOp, retryCount: nat, w: World)
    requires retryCount < MaxAttempts - 1
    requires var a := AttemptResult(op, Fetch(LoopRequest(op), w).result); a.Failure? && Is520(a.fault)
    ensures var s := Fetch(LoopRequest(op), w);
      RetryLoop(op, retryCount, w) == RetryLoop(op, retryCount + 1, s.world.(waits := s.world.waits + [LoopBackoff(retryCount)]))
  {
  }

  /** Any other outcome of an attempt ends the loop: a success returns it, a failure gives up. */
  lemma RetryLoopStops(op: LoopOp, retryCount: nat, w: World)
    requires retryCount < MaxAttempts
    requires var a := AttemptResult(op, Fetch(LoopRequest(op), w).result);
      a.Success? || !Is520(a.fault) || retryCount == MaxAttempts - 1
    ensures var s := Fetch(LoopRequest(op), w); var a := AttemptResult(op, s.result);
      RetryLoop(op, retryCount, w)
      == LoopEnd(if a.Success? then a else Failure(PlainError(GiveUpMessage(op))), s.world, retryCount)
  {
  }

  /** `todoService.updateTodo`. */
  function UpdateTodo(id: int, fields: string, w: World): Call<Body> {
    var e := RetryLoop(UpdateOp(id, fields), 0, w);
    Call(e.result, e.world)
  }

  /** `todoService.deleteTodo`. */
  function DeleteTodo(id: int, w: World): Call<Body> {
    var e := RetryLoop(DeleteOp(id), 0, w);
    Call(e.result, e.world)
  }
}
