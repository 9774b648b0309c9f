/** The API client of TodoMobile/app/services/api.ts in its own imperative form: the config object
    that the hooks mutate in place (`_retryCount += 1`, `_retry = true`, `headers.Authorization`),
    the token store whose writes and removals change state, and the `while` loops of `updateTodo`
    and `deleteTodo`. Every method is proved to produce exactly the outcome and the new state that
    the corresponding function of `ApiSpec` gives; the properties are proved about those functions. */
module ApiClient {
  import opened Wrappers
  import opened ApiSpec

  /** AsyncStorage, as a map from key to stored string. */
  class TokenStore {
    var items: map<string, string>

    constructor (items: map<string, string>)
      ensures this.items == items
    {
      this.items := items;
    }

    method GetItem(key: string) returns (value: Option<string>)
      ensures value == Lookup(items, key)
    {
      value := if key in items then Some(items[key]) else None;
    }

    method SetItem(key: string, value: string)
      modifies this
      ensures items == old(items)[key := value]
    {
      items := items[key := value];
    }

    method RemoveItem(key: string)
      modifies this
      ensures items == old(items) - {key}
    {
      items := items - {key};
    }
  }

  /** The network, as the script of replies still to come, plus the record of what was sent and
      of the delays waited (`setTimeout`). */
  class Transport {
    var script: seq<Reply>
    var log: seq<Exchange>
    var waits: seq<nat>

    constructor (script: seq<Reply>)
      ensures this.script == script && log == [] && waits == []
    {
      this.script, log, waits := script, [], [];
    }

    /** Sends one request and takes the next scripted reply; when the script is used up the
        request gets no response. */
    method Transmit(sent: Request) returns (reply: Reply)
      modifies this
      ensures reply == (if old(script) == [] then NoAnswer else old(script)[0])
      ensures script == (if old(script) == [] then [] else old(script)[1..])
      ensures log == old(log) + [Exchange(sent, reply)] && waits == old(waits)
    {
      if script == [] {
        reply := NoAnswer;
      } else {
        reply, script := script[0], script[1..];
      }
      log := log + [Exchange(sent, reply)];
    }

    method Sleep(ms: nat)
      modifies this
      ensures waits == old(waits) + [ms] && script == old(script) && log == old(log)
    {
      waits := waits + [ms];
    }
  }

  /** An axios request config object. */
  class Config {
    var verb: Verb
    var path: Path
    var body: RequestBody
    var headers: map<string, string>
    var retryCount: nat
    var retried: bool

    constructor (verb: Verb, path: Path, body: RequestBody)
      ensures Value() == NewRequest(verb, path, body)
    {
      this.verb, this.path, this.body := verb, path, body;
      headers, retryCount, retried := DefaultHeaders, 0, false;
    }

    function Value(): Request
      reads this
    {
      Request(verb, path, body, headers, retryCount, retried)
    }
  }

  /** The `api` axios instance with its two hooks, and the services that use it. */
  class Api {
    const store: TokenStore
    const net: Transport

    constructor (store: TokenStore, net: Transport)
      ensures this.store == store && this.net == net
    {
      this.store, this.net := store, net;
    }

    function State(): World
      reads store, net
    {
      World(store.items, net.script, net.log, net.waits)
    }

    /** `api(config)`. */
    method Send(cfg: Config) returns (o: Result<Response>)
      modifies store, net, cfg
      decreases |net.script|, 2
      ensures Step(o, cfg.Value(), State()) == Fetch(old(cfg.Value()), old(State()))
    {
      var token := store.GetItem(AccessKey);
      if Present(token) {
        cfg.headers := cfg.headers[AuthorizationHeader := Bearer(token.value)];
      }
      var reply := net.Transmit(cfg.Value());
      if reply.Answer? && IsSuccess(reply.response.status) {
        o := Success(reply.response);
      } else {
        o := OnError(cfg, reply);
      }
    }

    /** The error hook. */
    method OnError(cfg: Config, reply: Reply) returns (o: Result<Response>)
      modifies store, net, cfg
      decreases |net.script| + (if reply.Answer? then 1 else 0), 1
      ensures Step(o, cfg.Value(), State()) == ApiSpec.OnError(old(cfg.Value()), reply, old(State()))
    {
      if reply.Answer? && reply.response.status == 520 {
        o := RetryRequest(cfg, reply.response);
      } else if reply.Answer? && reply.response.status == 401 && !cfg.retried {
        cfg.retried := true;
        o := RefreshAndReplay(cfg);
      } else {
        o := Normalise(cfg, reply);
      }
    }

    /** `retryRequest(error)`. */
    method RetryRequest(cfg: Config, response: Response) returns (o: Result<Response>)
      modifies store, net, cfg
      decreases |net.script| + 1, 0
      ensures Step(o, cfg.Value(), State()) == ApiSpec.RetryRequest(old(cfg.Value()), response, old(State()))
    {
      if cfg.retryCount >= MaxRetries {
        return Failure(AxiosError(DefaultMessage(response.status), Some(response)));
      }
      cfg.retryCount := cfg.retryCount + 1;
      net.Sleep(Backoff(cfg.retryCount));
      o := Send(cfg);
    }

    /** The body of the 401 branch, after `_retry` is set. */
    method RefreshAndReplay(cfg: Config) returns (o: Result<Response>)
      requires cfg.retried
      modifies store, net, cfg
      decreases |net.script| + 1, 0
      ensures Step(o, cfg.Value(), State()) == ApiSpec.RefreshAndReplay(old(cfg.Value()), old(State()))
    {
      ghost var w0, marked := State(), cfg.Value();
      var refresh := store.GetItem(RefreshKey);
      if !Present(refresh) {
        store.RemoveItem(AccessKey);
        store.RemoveItem(RefreshKey);
        return Failure(PlainError(SessionExpired));
      }
      var refreshConfig := new Config(Post, RefreshPath, RefreshBody(refresh.value));
      var r := Send(refreshConfig);
      ghost var s1 := Fetch(RefreshRequest(refresh.value), w0);
      assert r == s1.result && State() == s1.world;
      assert cfg.Value() == marked;
      var access := AccessOf(r);
      if access.None? {
        store.RemoveItem(AccessKey);
        store.RemoveItem(RefreshKey);
        return Failure(PlainError(SessionExpired));
      }
      store.SetItem(AccessKey, access.value);
      cfg.headers := cfg.headers[AuthorizationHeader := Bearer(access.value)];
      ghost var w2 := State();
      assert w2 == s1.world.(tokens := s1.world.tokens[AccessKey := access.value]);
      assert ApiSpec.RefreshAndReplay(marked, w0) == Fetch(cfg.Value(), w2);
      o := Send(cfg);
    }

    /** The status `switch` and the no-response branch. */
    method Normalise(cfg: Config, reply: Reply) returns (o: Result<Response>)
      modifies store
      ensures Step(o, cfg.Value(), State()) == ApiSpec.Normalise(cfg.Value(), reply, old(State()))
    {
      match reply {
        case NoAnswer =>
          o := Failure(AxiosError(NetworkError, None));
        case Answer(response) =>
          if response.status == 401 {
            store.RemoveItem(AccessKey);
            store.RemoveItem(RefreshKey);
          }
          o := Failure(AxiosError(StatusMessage(response, DefaultMessage(response.status)), Some(response)));
      }
    }

    /** `authService.login`. */
    method Login(username: string, password: string) returns (r: Result<Body>)
      modifies store, net
      ensures Call(r, State()) == ApiSpec.Login(username, password, old(State()))
    {
      var cfg := new Config(Post, LoginPath, CredentialsBody(username, password));
      var o := Send(cfg);
      if o.Failure? {
        return Failure(Rewrap(o.fault, "Login failed"));
      }
      var data := o.value.data;
      var access := AccessOf(o);
      if access.None? {
        return Failure(BadShape);
      }
      store.SetItem(AccessKey, access.value);
      if !data.decoded.AuthData? {
        return Failure(BadShape);
      }
      store.SetItem(RefreshKey, data.decoded.auth.refresh);
      r := Success(data);
    }

    /** `authService.refreshToken`. */
    method RefreshToken() returns (r: Result<Body>)
      modifies store, net
      ensures Call(r, State()) == RefreshTokenCall(old(State()))
    {
      var refresh := store.GetItem(RefreshKey);
      if !Present(refresh) {
        return Failure(PlainError(NoRefreshToken));
      }
      var cfg := new Config(Post, RefreshPath, RefreshBody(refresh.value));
      var o := Send(cfg);
      if o.Failure? {
        return Failure(Rewrap(o.fault, "Token refresh failed"));
      }
      var access := AccessOf(o);
      if access.None? {
        return Failure(BadShape);
      }
      store.SetItem(AccessKey, access.value);
      r := Success(o.value.data);
    }

    /** `authService.register`. */
    method Register(username: string, email: string, password: string) returns (r: Result<Body>)
      modifies store, net
      ensures Call(r, State()) == ApiSpec.Register(username, email, password, old(State()))
    {
      var cfg := new Config(Post, RegisterPath, RegistrationBody(username, email, password));
      var o := Send(cfg);
      r := if o.Failure? then Failure(Rewrap(o.fault, "Registration failed")) else Success(o.value.data);
    }

    /** `authService.logout`: `fault` says which removal, if any, rejects. */
    method Logout(fault: StorageFault)
      modifies store
      ensures store.items == ApiSpec.Logout(old(store.items), fault)
    {
      if fault == AccessRemovalFails {
        return;
      }
      store.RemoveItem(AccessKey);
      if fault == RefreshRemovalFails {
        return;
      }
      store.RemoveItem(RefreshKey);
    }

    /** `todoService.getTodos`. */
    method GetTodos() returns (r: Result<Body>)
      modifies store, net
      ensures Call(r, State()) == ApiSpec.GetTodos(old(State()))
    {
      var cfg := new Config(Get, TodosPath, NoBody);
      var o := Send(cfg);
      r := if o.Failure? then Failure(PlainError("Failed to fetch todos. Please try again.")) else Success(o.value.data);
    }

    /** `todoService.getTodo`. */
    method GetTodo(id: int) returns (r: Result<Body>)
      modifies store, net
      ensures Call(r, State()) == ApiSpec.GetTodo(id, old(State()))
    {
      var cfg := new Config(Get, TodoPath(id), NoBody);
      var o := Send(cfg);
      r := if o.Failure? then Failure(Rewrap(o.fault, "Failed to fetch todo")) else Success(o.value.data);
    }

    /** `todoService.createTodo`. */
    method CreateTodo(fields: string) returns (r: Result<Body>)
      modifies store, net
      ensures Call(r, State()) == ApiSpec.CreateTodo(fields, old(State()))
    {
      var cfg := new Config(Post, TodosPath, TodoFields(fields));
      var o := Send(cfg);
      r := if o.Failure? then Failure(PlainError("Failed to create todo. Please try again.")) else Success(o.value.data);
    }

    /** `todoService.toggleTodo`. */
    method ToggleTodo(id: int) returns (r: Result<Body>)
      modifies store, net
      ensures Call(r, State()) == ApiSpec.ToggleTodo(id, old(State()))
    {
      var cfg := new Config(Post, TogglePath(id), NoBody);
      var o := Send(cfg);
      r := if o.Failure? then Failure(PlainError("Failed to toggle todo status. Please try again.")) else Success(o.value.data);
    }

    /** One pass of the loop body, number `retryCount`: send the request, judge its outcome, and
        after a 520 on any but the last pass wait the loop's backoff, as the `catch` does before
        `continue`. The ensures say where the loop goes next: it returns a success, goes round
        again after a 520 on any but the last pass, and otherwise gives up. */
    method Attempt(op: LoopOp, retryCount: nat) returns (attempt: Result<Body>)
      requires retryCount < MaxAttempts
      modifies store, net
      ensures attempt.Success? ==> RetryLoop(op, retryCount, old(State())) == LoopEnd(attempt, State(), retryCount)
      ensures attempt.Failure? && Is520(attempt.fault) && retryCount < MaxAttempts - 1 ==>
        RetryLoop(op, retryCount, old(State())) == RetryLoop(op, retryCount + 1, State())
      ensures attempt.Failure? && !(Is520(attempt.fault) && retryCount < MaxAttempts - 1) ==>
        RetryLoop(op, retryCount, old(State()))
        == LoopEnd(Failure(PlainError(GiveUpMessage(op))), State(), retryCount)
    {
      ghost var w := State();
      var req := LoopRequest(op);
      var cfg := new Config(req.verb, req.path, req.body);
      var o := Send(cfg);
      attempt := AttemptResult(op, o);
      if attempt.Failure? && Is520(attempt.fault) && retryCount < MaxAttempts - 1 {
        RetryLoopContinues(op, retryCount, w);
        net.Sleep(LoopBackoff(retryCount));
      } else {
        RetryLoopStops(op, retryCount, w);
      }
    }

    /** The `while` loop shared by `updateTodo` and `deleteTodo`. */
    method RunRetryLoop(op: LoopOp) returns (r: Result<Body>)
      modifies store, net
      ensures var e := RetryLoop(op, 0, old(State()));
        r == e.result && State() == e.world
    {
      ghost var goal := RetryLoop(op, 0, State());
      var maxRetries := MaxAttempts;
      var retryCount := 0;
      r := Failure(PlainError(ExhaustedMessage(op)));
      while retryCount < maxRetries
        invariant retryCount <= maxRetries
        invariant RetryLoop(op, retryCount, State()) == goal
        decreases maxRetries - retryCount
      {
        var attempt := Attempt(op, retryCount);
        if attempt.Success? {
          r := attempt;
          break;
        }
        if Is520(attempt.fault) && retryCount < maxRetries - 1 {
          retryCount := retryCount + 1;
          continue;
        }
        r := Failure(PlainError(GiveUpMessage(op)));
        break;
      }
    }

    /** `todoService.updateTodo`. */
    method UpdateTodo(id: int, fields: string) returns (r: Result<Body>)
      modifies store, net
      ensures Call(r, State()) == ApiSpec.UpdateTodo(id, fields, old(State()))
    {
      r := RunRetryLoop(UpdateOp(id, fields));
    }

    /** `todoService.deleteTodo`. */
    method DeleteTodo(id: int) returns (r: Result<Body>)
      modifies store, net
      ensures Call(r, State()) == ApiSpec.DeleteTodo(id, old(State()))
    {
      r := RunRetryLoop(DeleteOp(id));
    }
  }
}
