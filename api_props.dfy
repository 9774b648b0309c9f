/** Properties of the API client model: what the 520 retry, the 401 refresh-and-replay and the
    message normalisation do for given server replies, what the pipeline never does whatever the
    replies, and what the services and their retry loops return. */
module ApiProps {
  import opened Wrappers
  import opened ApiSpec

  predicate Is520Answer(r: Reply) {
    r.Answer? && r.response.status == 520
  }

  predicate IsSuccessAnswer(r: Reply) {
    r.Answer? && IsSuccess(r.response.status)
  }

  /** The delays waited by `k` retries of a config whose `_retryCount` was `c`:
      `Backoff(c + 1)`, ..., `Backoff(c + k)`. */
  function Delays(c: nat, k: nat): (r: seq<nat>)
    ensures |r| == k
    ensures forall i :: 0 <= i < k ==> r[i] == Backoff(c + 1 + i)
    decreases k
  {
    if k == 0 then [] else [Backoff(c + 1)] + Delays(c + 1, k - 1)
  }

  // ---------------------------------------------------------------- what every pass keeps

  /** A rejection carrying a 520 response comes only once the config's retries are used up, and
      still has axios' own message for it. */
  predicate Settled520(s: Step) {
    s.result.Failure? && Is520(s.result.fault) ==>
      s.result.fault.message == DefaultMessage(520) && s.request.retryCount >= MaxRetries
  }

  /** Only the two token keys can differ, so clearing both gives the same storage. */
  lemma ClearTokensOfOthers(tokens: map<string, string>, tokens': map<string, string>)
    requires OtherKeys(tokens) == OtherKeys(tokens')
    ensures ClearTokens(tokens) == ClearTokens(tokens')
  {
    assert ClearTokens(tokens) == OtherKeys(tokens);
    assert ClearTokens(tokens') == OtherKeys(tokens');
  }

  /** The refresh token may be removed but is never written. */
  predicate RefreshNotWritten(tokens: map<string, string>, tokens': map<string, string>) {
    RefreshKey in tokens' ==> RefreshKey in tokens && tokens'[RefreshKey] == tokens[RefreshKey]
  }

  predicate No520(script: seq<Reply>) {
    forall i :: 0 <= i < |script| ==> !Is520Answer(script[i])
  }

  predicate No401(script: seq<Reply>) {
    forall i :: 0 <= i < |script| ==> !Is401Answer(script[i])
  }

  /** The two fields the error hook adds are independent: only a 520 reply moves `_retryCount`,
      only a 401 reply sets `_retry`. */
  predicate SeparateFields(req: Request, replies: seq<Reply>, s: Step) {
    && (No520(replies) ==> s.request.retryCount == req.retryCount)
    && (No401(replies) ==> s.request.retried == req.retried)
  }

  predicate Keeps(req: Request, w: World, s: Step) {
    && Advances(w, s.world)
    && Evolves(req, s.request)
    && SuccessIsLastReply(s)
    && Settled520(s)
    && RefreshNotWritten(w.tokens, s.world.tokens)
  }

  /** What holds of every reply of a script holds of every reply of a suffix of it. */
  lemma SuffixKeepsNone(a: seq<Reply>, b: seq<Reply>)
    requires IsSuffix(a, b)
    ensures No520(b) ==> No520(a)
    ensures No401(b) ==> No401(a)
  {
    forall i | 0 <= i < |a| ensures a[i] == b[i + |b| - |a|] {
    }
  }

  lemma OtherKeysOfClear(tokens: map<string, string>)
    ensures OtherKeys(ClearTokens(tokens)) == OtherKeys(tokens)
  {
    assert OtherKeys(ClearTokens(tokens)).Keys == OtherKeys(tokens).Keys;
  }

  lemma OtherKeysOfAccess(tokens: map<string, string>, access: string)
    ensures OtherKeys(tokens[AccessKey := access]) == OtherKeys(tokens)
  {
    assert OtherKeys(tokens[AccessKey := access]).Keys == OtherKeys(tokens).Keys;
  }

  lemma AdvancesTransitive(w: World, w': World, w'': World)
    requires Advances(w, w') && Advances(w', w'')
    ensures Advances(w, w'')
  {
  }

  /** Whatever the server replies, a pass through the pipeline: only consumes replies and adds to
      the log and the delays, sending at least one request; leaves every storage key but the two
      tokens alone; changes the config only by raising its retry counter (never past 3 unless it
      was already) and marking it, the counter only on a 520 reply and the mark only on a 401;
      resolves only with the 2xx reply to the last request sent; rejects a 520 only once the
      config's retries are used up and only with axios' message, never with the switch's "Server
      connection error"; and never writes the refresh token. */
  lemma FetchKeeps(req: Request, w: World)
    ensures var s := Fetch(req, w);
      Keeps(req, w, s) && |w.log| < |s.world.log| && SeparateFields(req, w.script, s)
  {
    FetchAdvances(req, w);
    FetchFields(req, w);
    FetchOutcome(req, w);
  }

  // The three parts of FetchKeeps, each by induction over the mutual recursion of the pipeline.

  lemma {:induction false} FetchAdvances(req: Request, w: World)
    decreases |w.script|, 2
    ensures var s := Fetch(req, w); Advances(w, s.world) && |w.log| < |s.world.log|
  {
    var sent := Authorize(req, w.tokens);
    var w1 := Exchanged(w, sent);
    FetchUnfold(req, w);
    ExchangeAdvances(w, sent);
    if !IsSuccessAnswer(FirstReply(w)) {
      OnErrorAdvances(sent, FirstReply(w), w1);
      AdvancesTransitive(w, w1, OnError(sent, FirstReply(w), w1).world);
    }
  }

  /** The reply the next request gets: the first scripted one, or none when the script is used up. */
  function FirstReply(w: World): Reply {
    if w.script == [] then NoAnswer else w.script[0]
  }

  /** The world after `sent` went out and got `FirstReply(w)`: `AfterExchange`, or, with the script
      used up, only the log entry of the request that got no answer. */
  function Exchanged(w: World, sent: Request): World {
    if w.script == [] then w.(log := w.log + [Exchange(sent, NoAnswer)]) else AfterExchange(w, sent)
  }

  /** One pass: the request hook, one exchange, then the response or the error hook. */
  lemma FetchUnfold(req: Request, w: World)
    ensures var sent := Authorize(req, w.tokens);
      Fetch(req, w)
      == if IsSuccessAnswer(FirstReply(w)) then Step(Success(FirstReply(w).response), sent, Exchanged(w, sent))
         else OnError(sent, FirstReply(w), Exchanged(w, sent))
  {
  }

  /** One exchange consumes at most the first reply and adds one log entry. */
  lemma ExchangeAdvances(w: World, sent: Request)
    ensures Advances(w, Exchanged(w, sent)) && |w.log| < |Exchanged(w, sent).log|
  {
    var w1 := Exchanged(w, sent);
    assert w1.log[..|w.log|] == w.log;
  }

  lemma {:induction false} OnErrorAdvances(req: Request, reply: Reply, w: World)
    decreases |w.script| + (if reply.Answer? then 1 else 0), 1
    ensures Advances(w, OnError(req, reply, w).world)
  {
    if reply.Answer? && reply.response.status == 520 {
      RetryRequestAdvances(req, reply.response, w);
    } else if reply.Answer? && reply.response.status == 401 && !req.retried {
      RefreshAndReplayAdvances(req.(retried := true), w);
    } else if reply.Answer? && reply.response.status == 401 {
      OtherKeysOfClear(w.tokens);
    }
  }

  lemma {:induction false} RetryRequestAdvances(req: Request, response: Response, w: World)
    decreases |w.script| + 1, 0
    ensures Advances(w, RetryRequest(req, response, w).world)
  {
    if req.retryCount < MaxRetries {
      var next := req.(retryCount := req.retryCount + 1);
      var w1 := w.(waits := w.waits + [Backoff(next.retryCount)]);
      assert RetryRequest(req, response, w) == Fetch(next, w1);
      FetchAdvances(next, w1);
      AdvancesTransitive(w, w1, Fetch(next, w1).world);
    }
  }

  lemma {:induction false} RefreshAndReplayAdvances(marked: Request, w: World)
    requires marked.retried
    decreases |w.script| + 1, 0
    ensures Advances(w, RefreshAndReplay(marked, w).world)
  {
    var refresh := Lookup(w.tokens, RefreshKey);
    if !Present(refresh) {
      OtherKeysOfClear(w.tokens);
    } else {
      var r := Fetch(RefreshRequest(refresh.value), w);
      FetchAdvances(RefreshRequest(refresh.value), w);
      var access := AccessOf(r.result);
      if access.None? {
        OtherKeysOfClear(r.world.tokens);
        AdvancesTransitive(w, r.world, r.world.(tokens := ClearTokens(r.world.tokens)));
      } else {
        var w2 := r.world.(tokens := r.world.tokens[AccessKey := access.value]);
        OtherKeysOfAccess(r.world.tokens, access.value);
        AdvancesTransitive(w, r.world, w2);
        var replay := marked.(headers := marked.headers[AuthorizationHeader := Bearer(access.value)]);
        FetchAdvances(replay, w2);
        AdvancesTransitive(w, w2, Fetch(replay, w2).world);
      }
    }
  }

  lemma {:induction false} FetchFields(req: Request, w: World)
    decreases |w.script|, 2
    ensures var s := Fetch(req, w); Evolves(req, s.request) && SeparateFields(req, w.script, s)
  {
    var sent := Authorize(req, w.tokens);
    var reply := if w.script == [] then NoAnswer else w.script[0];
    var w1 := w.(script := if w.script == [] then [] else w.script[1..], log := w.log + [Exchange(sent, reply)]);
    if !(reply.Answer? && IsSuccess(reply.response.status)) {
      assert Fetch(req, w) == OnError(sent, reply, w1);
      OnErrorFields(sent, reply, w1);
      if w.script != [] {
        assert [reply] + w1.script == w.script;
      } else {
        assert No520([reply] + w1.script) && No401([reply] + w1.script);
      }
    }
  }

  lemma {:induction false} OnErrorFields(req: Request, reply: Reply, w: World)
    decreases |w.script| + (if reply.Answer? then 1 else 0), 1
    ensures var s := OnError(req, reply, w); Evolves(req, s.request) && SeparateFields(req, [reply] + w.script, s)
  {
    if reply.Answer? && reply.response.status == 520 {
      assert [reply] == [Answer(reply.response)];
      RetryRequestFields(req, reply.response, w);
    } else if reply.Answer? && reply.response.status == 401 && !req.retried {
      SuffixKeepsNone(w.script, [reply] + w.script);
      assert Is401Answer(([reply] + w.script)[0]);
      RefreshAndReplayFields(req.(retried := true), w);
    }
  }

  lemma {:induction false} RetryRequestFields(req: Request, response: Response, w: World)
    requires response.status == 520
    decreases |w.script| + 1, 0
    ensures var s := RetryRequest(req, response, w);
      Evolves(req, s.request) && SeparateFields(req, [Answer(response)] + w.script, s)
  {
    SuffixKeepsNone(w.script, [Answer(response)] + w.script);
    assert Is520Answer(([Answer(response)] + w.script)[0]);
    if req.retryCount < MaxRetries {
      var next := req.(retryCount := req.retryCount + 1);
      var w1 := w.(waits := w.waits + [Backoff(next.retryCount)]);
      assert RetryRequest(req, response, w) == Fetch(next, w1);
      FetchFields(next, w1);
    }
  }

  lemma {:induction false} RefreshAndReplayFields(marked: Request, w: World)
    requires marked.retried
    decreases |w.script| + 1, 0
    ensures var s := RefreshAndReplay(marked, w); Evolves(marked, s.request) && SeparateFields(marked, w.script, s)
  {
    var refresh := Lookup(w.tokens, RefreshKey);
    if Present(refresh) {
      var r := Fetch(RefreshRequest(refresh.value), w);
      var access := AccessOf(r.result);
      if access.Some? {
        var w2 := r.world.(tokens := r.world.tokens[AccessKey := access.value]);
        FetchAdvances(RefreshRequest(refresh.value), w);
        SuffixKeepsNone(w2.script, w.script);
        FetchFields(marked.(headers := marked.headers[AuthorizationHeader := Bearer(access.value)]), w2);
      }
    }
  }

  /** What a pass gives back: a success is the reply to the last request, a 520 rejection has
      axios' message, and the refresh token is never written. */
  predicate Outcome(w: World, s: Step) {
    SuccessIsLastReply(s) && Settled520(s) && RefreshNotWritten(w.tokens, s.world.tokens)
  }

  lemma {:induction false} FetchOutcome(req: Request, w: World)
    decreases |w.script|, 2
    ensures Outcome(w, Fetch(req, w))
  {
    var sent := Authorize(req, w.tokens);
    var reply := if w.script == [] then NoAnswer else w.script[0];
    var w1 := w.(script := if w.script == [] then [] else w.script[1..], log := w.log + [Exchange(sent, reply)]);
    if !(reply.Answer? && IsSuccess(reply.response.status)) {
      assert Fetch(req, w) == OnError(sent, reply, w1);
      OnErrorOutcome(sent, reply, w1);
    }
  }

  lemma {:induction false} OnErrorOutcome(req: Request, reply: Reply, w: World)
    decreases |w.script| + (if reply.Answer? then 1 else 0), 1
    ensures Outcome(w, OnError(req, reply, w))
  {
    if reply.Answer? && reply.response.status == 520 {
      RetryRequestOutcome(req, reply.response, w);
    } else if reply.Answer? && reply.response.status == 401 && !req.retried {
      RefreshAndReplayOutcome(req.(retried := true), w);
    } else {
      assert OnError(req, reply, w) == Normalise(req, reply, w);
    }
  }

  lemma {:induction false} RetryRequestOutcome(req: Request, response: Response, w: World)
    decreases |w.script| + 1, 0
    ensures Outcome(w, RetryRequest(req, response, w))
  {
    if req.retryCount < MaxRetries {
      var next := req.(retryCount := req.retryCount + 1);
      var w1 := w.(waits := w.waits + [Backoff(next.retryCount)]);
      assert RetryRequest(req, response, w) == Fetch(next, w1);
      FetchOutcome(next, w1);
    }
  }

  lemma {:induction false} RefreshAndReplayOutcome(marked: Request, w: World)
    requires marked.retried
    decreases |w.script| + 1, 0
    ensures Outcome(w, RefreshAndReplay(marked, w))
  {
    var refresh := Lookup(w.tokens, RefreshKey);
    if Present(refresh) {
      var r := Fetch(RefreshRequest(refresh.value), w);
      FetchOutcome(RefreshRequest(refresh.value), w);
      var access := AccessOf(r.result);
      if access.Some? {
        var w2 := r.world.(tokens := r.world.tokens[AccessKey := access.value]);
        FetchOutcome(marked.(headers := marked.headers[AuthorizationHeader := Bearer(access.value)]), w2);
      }
    }
  }

  // ---------------------------------------------------------------- 520: retryRequest

  /** The world after one exchange: `sent` went out and got the first scripted reply. */
  function AfterExchange(w: World, sent: Request): World
    requires w.script != []
  {
    w.(script := w.script[1..], log := w.log + [Exchange(sent, w.script[0])])
  }

  /** A 2xx reply resolves the call with that response, after exactly one exchange. */
  lemma FetchOnSuccess(req: Request, w: World)
    requires w.script != [] && IsSuccessAnswer(w.script[0])
    ensures var sent := Authorize(req, w.tokens);
      Fetch(req, w) == Step(Success(w.script[0].response), sent, AfterExchange(w, sent))
  {
  }

  /** A reply other than a 2xx goes to the error hook, after one exchange. */
  lemma FetchOnFailure(req: Request, w: World)
    requires w.script != [] && !IsSuccessAnswer(w.script[0])
    ensures var sent := Authorize(req, w.tokens);
      Fetch(req, w) == OnError(sent, w.script[0], AfterExchange(w, sent))
  {
  }

  /** A 520 reply to a config with retries left sends the same config again, its counter one
      higher, after waiting `2^counter` seconds; nothing else in the world changes. */
  lemma FetchOn520(req: Request, w: World)
    requires w.script != [] && Is520Answer(w.script[0]) && req.retryCount < MaxRetries
    ensures var sent := Authorize(req, w.tokens); var w1 := AfterExchange(w, sent);
      Fetch(req, w) == Fetch(sent.(retryCount := sent.retryCount + 1), w1.(waits := w1.waits + [Backoff(sent.retryCount + 1)]))
  {
    var sent := Authorize(req, w.tokens);
    var w1 := AfterExchange(w, sent);
    var response := w.script[0].response;
    FetchOnFailure(req, w);
    assert w.script[0] == Answer(response);
    OnErrorOn520(sent, response, w1);
    RetryRequestResends(sent, response, w1);
  }

  /** The error hook hands every 520 to retryRequest, whatever the config's mark. */
  lemma OnErrorOn520(req: Request, response: Response, w: World)
    requires response.status == 520
    ensures OnError(req, Answer(response), w) == RetryRequest(req, response, w)
  {
  }

  /** retryRequest below the limit waits the backoff for the raised counter and sends again. */
  lemma RetryRequestResends(req: Request, response: Response, w: World)
    requires req.retryCount < MaxRetries
    ensures RetryRequest(req, response, w)
      == Fetch(req.(retryCount := req.retryCount + 1), w.(waits := w.waits + [Backoff(req.retryCount + 1)]))
  {
  }

  /** A 520 reply to a config whose retries are used up rejects the call with the axios error
      unchanged: the switch's own 520 message is never reached. */
  lemma FetchOnLast520(req: Request, w: World)
    requires w.script != [] && Is520Answer(w.script[0]) && req.retryCount >= MaxRetries
    ensures var sent := Authorize(req, w.tokens);
      Fetch(req, w) == Step(Failure(AxiosError(DefaultMessage(520), Some(w.script[0].response))), sent, AfterExchange(w, sent))
  {
    var sent := Authorize(req, w.tokens);
    assert Fetch(req, w) == RetryRequest(sent, w.script[0].response, AfterExchange(w, sent));
  }

  /** A config answered by `k` replies of 520 and then a success (or, once its retries are used up,
      by one more 520) is sent `k + 1` times: each retry waits twice as long as the one before, the
      tokens are not touched, and the last reply decides: a success is returned, a 520 past the
      limit is rejected with axios' own message for it. */
  lemma {:induction false} Through520s(req: Request, w: World, k: nat)
    requires k < |w.script| && req.retryCount + k <= MaxRetries
    requires forall i :: 0 <= i < k ==> Is520Answer(w.script[i])
    requires IsSuccessAnswer(w.script[k]) || (Is520Answer(w.script[k]) && req.retryCount + k == MaxRetries)
    ensures var s := Fetch(req, w); var last := w.script[k].response;
      && s.result == (if IsSuccess(last.status) then Success(last) else Failure(AxiosError(DefaultMessage(520), Some(last))))
      && s.world == w.(script := w.script[k + 1..], log := s.world.log, waits := w.waits + Delays(req.retryCount, k))
      && |s.world.log| == |w.log| + k + 1
      && s.request.retryCount == req.retryCount + k
    decreases k
  {
    if k == 0 {
      assert w.waits + Delays(req.retryCount, 0) == w.waits;
      if IsSuccessAnswer(w.script[0]) {
        FetchOnSuccess(req, w);
      } else {
        FetchOnLast520(req, w);
      }
    } else {
      var sent := Authorize(req, w.tokens);
      var w1 := AfterExchange(w, sent);
      var next := sent.(retryCount := sent.retryCount + 1);
      var w2 := w1.(waits := w1.waits + [Backoff(sent.retryCount + 1)]);
      FetchOn520(req, w);
      forall i | 0 <= i < k - 1 ensures Is520Answer(w2.script[i]) {
        assert w2.script[i] == w.script[i + 1];
      }
      assert w2.script[k - 1] == w.script[k];
      Through520s(next, w2, k - 1);
      RetryShift(w, w2, Fetch(next, w2).world, req.retryCount, k);
    }
  }

  /** The world after a retry, `w2`, and after the remaining `k - 1` retries, seen from the world
      `w` before the first: the same consumption and delays counted from `w`. */
  lemma RetryShift(w: World, w2: World, w3: World, retryCount: nat, k: nat)
    requires 0 < k < |w.script|
    requires w2.tokens == w.tokens && w2.script == w.script[1..] && |w2.log| == |w.log| + 1
    requires w2.waits == w.waits + [Backoff(retryCount + 1)]
    requires w3 == w2.(script := w2.script[k - 1 + 1..], log := w3.log, waits := w2.waits + Delays(retryCount + 1, k - 1))
    requires |w3.log| == |w2.log| + (k - 1) + 1
    ensures w3 == w.(script := w.script[k + 1..], log := w3.log, waits := w.waits + Delays(retryCount, k))
    ensures |w3.log| == |w.log| + k + 1
  {
    assert w2.script[k - 1 + 1..] == w.script[k + 1..];
    assert w2.waits + Delays(retryCount + 1, k - 1) == w.waits + Delays(retryCount, k);
  }

  /** The retry delays of one config are 2, 4 and 8 seconds, and each is longer than the last. */
  lemma BackoffSchedule()
    ensures Delays(0, MaxRetries) == [2000, 4000, 8000]
    ensures forall c: nat, k: nat, i, j :: 0 <= i < j < k ==> Delays(c, k)[i] < Delays(c, k)[j]
  {
    forall c: nat, k: nat, i, j | 0 <= i < j < k ensures Delays(c, k)[i] < Delays(c, k)[j] {
      DelaysIncrease(c, k, i, j);
    }
  }

  lemma {:induction false} DelaysIncrease(c: nat, k: nat, i: nat, j: nat)
    requires i < j < k
    ensures Delays(c, k)[i] < Delays(c, k)[j]
    decreases k
  {
    if i == 0 {
      DelaysAbove(c + 1, k - 1, j - 1);
    } else {
      DelaysIncrease(c + 1, k - 1, i - 1, j - 1);
    }
  }

  lemma {:induction false} DelaysAbove(c: nat, k: nat, j: nat)
    requires j < k
    ensures Delays(c, k)[j] > Backoff(c)
    decreases k
  {
    if j > 0 {
      DelaysAbove(c + 1, k - 1, j - 1);
    }
  }

  // ---------------------------------------------------------------- 401: refresh and replay

  predicate Is401Answer(r: Reply) {
    r.Answer? && r.response.status == 401
  }

  lemma ClearTwice(tokens: map<string, string>)
    ensures ClearTokens(ClearTokens(tokens)) == ClearTokens(tokens)
  {
    assert ClearTokens(ClearTokens(tokens)).Keys == ClearTokens(tokens).Keys;
  }

  /** A first 401 on a config, with no refresh token stored: the config is marked, both tokens
      are removed and the call fails with "Session expired", after that one request. */
  lemma UnauthorizedWithoutRefreshToken(req: Request, w: World)
    requires w.script != [] && Is401Answer(w.script[0]) && !req.retried
    requires !Present(Lookup(w.tokens, RefreshKey))
    ensures var sent := Authorize(req, w.tokens);
      Fetch(req, w)
      == Step(Failure(PlainError(SessionExpired)), sent.(retried := true), AfterExchange(w, sent).(tokens := ClearTokens(w.tokens)))
  {
    var sent := Authorize(req, w.tokens);
    var w1 := AfterExchange(w, sent);
    FetchOnFailure(req, w);
    assert OnError(sent, w.script[0], w1) == RefreshAndReplay(sent.(retried := true), w1);
  }

  /** A first 401, a stored refresh token, and a refresh request answered with a new access token:
      exactly one refresh request goes out, carrying the stored refresh token; only the access token
      is written; the config, marked and now carrying the new bearer header, is sent again, and
      whatever that replay gives is what the call gives. */
  lemma RefreshThenReplay(req: Request, w: World, access: string)
    requires |w.script| >= 2 && Is401Answer(w.script[0]) && !req.retried
    requires Present(Lookup(w.tokens, RefreshKey))
    requires IsSuccessAnswer(w.script[1]) && AccessOf(Success(w.script[1].response)) == Some(access)
    ensures var sent := Authorize(req, w.tokens);
      var refreshSent := Authorize(RefreshRequest(w.tokens[RefreshKey]), w.tokens);
      var w2 := w.(script := w.script[2..],
                   log := w.log + [Exchange(sent, w.script[0]), Exchange(refreshSent, w.script[1])],
                   tokens := w.tokens[AccessKey := access]);
      Fetch(req, w) == Fetch(sent.(retried := true, headers := sent.headers[AuthorizationHeader := Bearer(access)]), w2)
  {
    var sent := Authorize(req, w.tokens);
    var w1 := AfterExchange(w, sent);
    FetchOnFailure(req, w);
    assert OnError(sent, w.script[0], w1) == RefreshAndReplay(sent.(retried := true), w1);
    var refresh := RefreshRequest(w.tokens[RefreshKey]);
    var refreshSent := Authorize(refresh, w.tokens);
    FetchOnSuccess(refresh, w1);
    var r := Fetch(refresh, w1);
    assert r == Step(Success(w.script[1].response), refreshSent, AfterExchange(w1, refreshSent));
    assert AccessOf(r.result) == Some(access);
    assert w1.script[1..] == w.script[2..];
    assert w1.log + [Exchange(refreshSent, w1.script[0])]
        == w.log + [Exchange(sent, w.script[0]), Exchange(refreshSent, w.script[1])];
  }

  /** A first 401 with a refresh token stored, and the refresh request rejected with a status that
      is neither 2xx, 401 nor 520: both tokens are removed and the call fails with "Session
      expired", after two requests. */
  lemma RefreshRejected(req: Request, w: World)
    requires |w.script| >= 2 && Is401Answer(w.script[0]) && !req.retried
    requires Present(Lookup(w.tokens, RefreshKey))
    requires w.script[1].Answer?
    requires var st := w.script[1].response.status; !IsSuccess(st) && st != 401 && st != 520
    ensures var s := Fetch(req, w);
      && s.result == Failure(PlainError(SessionExpired))
      && s.world.tokens == ClearTokens(w.tokens)
      && s.world.script == w.script[2..] && |s.world.log| == |w.log| + 2
  {
    var sent := Authorize(req, w.tokens);
    var w1 := AfterExchange(w, sent);
    FetchOnFailure(req, w);
    assert OnError(sent, w.script[0], w1) == RefreshAndReplay(sent.(retried := true), w1);
    var refresh := RefreshRequest(w.tokens[RefreshKey]);
    var refreshSent := Authorize(refresh, w1.tokens);
    assert Fetch(refresh, w1) == OnError(refreshSent, w1.script[0], AfterExchange(w1, refreshSent));
    assert w1.script[1..] == w.script[2..];
  }

  /** A first 401 with a refresh token stored, and a refresh call that yields no access token,
      whatever happened to it (no response, a rejection, its 520 retries used up, a 401 chain, or
      a success body without `access`): both tokens are removed and the call fails with
      "Session expired", in the world the refresh call left. */
  lemma RefreshFailureExpires(req: Request, w: World)
    requires w.script != [] && Is401Answer(w.script[0]) && !req.retried
    requires Present(Lookup(w.tokens, RefreshKey))
    requires AccessOf(RefreshCall(AfterExchange(w, Authorize(req, w.tokens))).result).None?
    ensures var sent := Authorize(req, w.tokens); var r := RefreshCall(AfterExchange(w, sent));
      Fetch(req, w) == Step(Failure(PlainError(SessionExpired)), sent.(retried := true), r.world.(tokens := ClearTokens(w.tokens)))
  {
    var sent := Authorize(req, w.tokens);
    var w1 := AfterExchange(w, sent);
    FetchOnFailure(req, w);
    OnErrorOn401(sent, w.script[0].response, w1);
    RefreshWithoutAccess(sent.(retried := true), w1);
  }

  /** The refresh call the 401 path makes with the stored refresh token. */
  function RefreshCall(w: World): Step
    requires RefreshKey in w.tokens
  {
    Fetch(RefreshRequest(w.tokens[RefreshKey]), w)
  }

  /** The error hook hands a first 401 to the refresh path, marking the config. */
  lemma OnErrorOn401(req: Request, response: Response, w: World)
    requires response.status == 401 && !req.retried
    ensures OnError(req, Answer(response), w) == RefreshAndReplay(req.(retried := true), w)
  {
  }

  /** The refresh path when the refresh call yields no access token: the session expires, and
      clearing the tokens in the world the refresh call left is clearing them in the world before. */
  lemma RefreshWithoutAccess(marked: Request, w: World)
    requires marked.retried && Present(Lookup(w.tokens, RefreshKey))
    requires AccessOf(RefreshCall(w).result).None?
    ensures RefreshAndReplay(marked, w) == Step(Failure(PlainError(SessionExpired)), marked, RefreshCall(w).world.(tokens := ClearTokens(w.tokens)))
  {
    var refresh := RefreshRequest(w.tokens[RefreshKey]);
    FetchAdvances(refresh, w);
    ClearTokensOfOthers(Fetch(refresh, w).world.tokens, w.tokens);
  }

  /** The ways a refresh call can fail to bring an access token, by the replies it gets: none at
      all, four 520s (the refresh's own retries used up), or a success body without `access`. In
      each, the first 401 ends in "Session expired" with both tokens removed. */
  lemma RefreshFailureCases(req: Request, w: World)
    requires w.script != [] && Is401Answer(w.script[0]) && !req.retried
    requires Present(Lookup(w.tokens, RefreshKey))
    ensures |w.script| == 1 || w.script[1] == NoAnswer ==>
      Fetch(req, w).result == Failure(PlainError(SessionExpired)) && Fetch(req, w).world.tokens == ClearTokens(w.tokens)
    ensures |w.script| >= 5 && (forall i :: 1 <= i < 5 ==> Is520Answer(w.script[i])) ==>
      Fetch(req, w).result == Failure(PlainError(SessionExpired)) && Fetch(req, w).world.tokens == ClearTokens(w.tokens)
    ensures |w.script| >= 2 && IsSuccessAnswer(w.script[1]) && AccessOf(Success(w.script[1].response)).None? ==>
      Fetch(req, w).result == Failure(PlainError(SessionExpired)) && Fetch(req, w).world.tokens == ClearTokens(w.tokens)
  {
    var sent := Authorize(req, w.tokens);
    var w1 := AfterExchange(w, sent);
    var refresh := RefreshRequest(w.tokens[RefreshKey]);
    if |w.script| == 1 || w.script[1] == NoAnswer {
      NoResponse(refresh, w1);
      RefreshFailureExpires(req, w);
    }
    if |w.script| >= 5 && (forall i :: 1 <= i < 5 ==> Is520Answer(w.script[i])) {
      forall i | 0 <= i < 4 ensures Is520Answer(w1.script[i]) {
        assert w1.script[i] == w.script[i + 1];
      }
      Through520s(refresh, w1, 3);
      RefreshFailureExpires(req, w);
    }
    if |w.script| >= 2 && IsSuccessAnswer(w.script[1]) && AccessOf(Success(w.script[1].response)).None? {
      FetchOnSuccess(refresh, w1);
      RefreshFailureExpires(req, w);
    }
  }

  /** A 401 on a config that is already marked goes to the switch: both tokens are removed and the
      call is rejected with axios' message for 401, after that one request. */
  lemma SecondUnauthorized(req: Request, w: World)
    requires w.script != [] && Is401Answer(w.script[0]) && req.retried
    ensures var sent := Authorize(req, w.tokens);
      Fetch(req, w)
      == Step(Failure(AxiosError(DefaultMessage(401), Some(w.script[0].response))), sent,
              AfterExchange(w, sent).(tokens := ClearTokens(w.tokens)))
  {
    var sent := Authorize(req, w.tokens);
    FetchOnFailure(req, w);
  }

  /** Same method, path and body: the same request, whatever its headers and added fields. */
  predicate SameTarget(req: Request, req': Request) {
    req'.verb == req.verb && req'.path == req.path && req'.body == req.body
  }

  /** `log'` extends `log` only with requests for the target of `req`, each marked `_retry`. */
  predicate SendsOnly(req: Request, log: seq<Exchange>, log': seq<Exchange>) {
    log <= log' && forall i :: |log| <= i < |log'| ==> SameTarget(req, log'[i].request) && log'[i].request.retried
  }

  /** A config already marked `_retry` never starts a refresh, whatever the server replies: every
      request the pass sends is that config again (after 520s) and never the refresh POST, which
      goes out unmarked. So one config triggers at most one refresh. */
  lemma {:induction false} MarkedSendsNoRefresh(req: Request, w: World)
    requires req.retried
    ensures var s := Fetch(req, w); SendsOnly(req, w.log, s.world.log) && |w.log| < |s.world.log|
    decreases |w.script|
  {
    var sent := Authorize(req, w.tokens);
    var w1 := Exchanged(w, sent);
    FetchUnfold(req, w);
    var reply := FirstReply(w);
    if !IsSuccessAnswer(reply) && reply.Answer? && reply.response.status == 520 {
      OnErrorOn520(sent, reply.response, w1);
      if sent.retryCount < MaxRetries {
        var next := sent.(retryCount := sent.retryCount + 1);
        var w2 := w1.(waits := w1.waits + [Backoff(next.retryCount)]);
        RetryRequestResends(sent, reply.response, w1);
        MarkedSendsNoRefresh(next, w2);
      }
    }
  }

  /** The refresh request is an unmarked config of its own, so a 401 on it starts another refresh:
      with a refresh token stored, `n` replies of 401 in a row make the client send `n + 1`
      requests before failing with "Session expired". Marking bounds the refreshes of one config,
      not the length of the chain. */
  lemma {:induction false} RefreshChain(req: Request, w: World)
    requires !req.retried && Present(Lookup(w.tokens, RefreshKey))
    requires forall i :: 0 <= i < |w.script| ==> Is401Answer(w.script[i])
    ensures var s := Fetch(req, w);
      && s.world.script == []
      && |s.world.log| == |w.log| + |w.script| + 1
      && (w.script == [] ==> s.result == Failure(AxiosError(NetworkError, None)) && s.world.tokens == w.tokens)
      && (w.script != [] ==> s.result == Failure(PlainError(SessionExpired)) && s.world.tokens == ClearTokens(w.tokens))
    decreases |w.script|
  {
    var sent := Authorize(req, w.tokens);
    if w.script == [] {
      var w1 := w.(log := w.log + [Exchange(sent, NoAnswer)]);
      assert Fetch(req, w) == OnError(sent, NoAnswer, w1);
    } else {
      var w1 := AfterExchange(w, sent);
      FetchOnFailure(req, w);
      assert OnError(sent, w.script[0], w1) == RefreshAndReplay(sent.(retried := true), w1);
      var refresh := RefreshRequest(w.tokens[RefreshKey]);
      forall i | 0 <= i < |w1.script| ensures Is401Answer(w1.script[i]) {
        assert w1.script[i] == w.script[i + 1];
      }
      RefreshChain(refresh, w1);
      ClearTwice(w.tokens);
    }
  }

  // ---------------------------------------------------------------- normalisation

  /** No response at all is a network error, after that one request; the tokens are not touched. */
  lemma NoResponse(req: Request, w: World)
    requires w.script == [] || w.script[0] == NoAnswer
    ensures var sent := Authorize(req, w.tokens);
      Fetch(req, w)
      == Step(Failure(AxiosError(NetworkError, None)), sent,
              w.(script := if w.script == [] then [] else w.script[1..], log := w.log + [Exchange(sent, NoAnswer)]))
  {
    var sent := Authorize(req, w.tokens);
    var w1 := w.(script := if w.script == [] then [] else w.script[1..], log := w.log + [Exchange(sent, NoAnswer)]);
    assert Fetch(req, w) == OnError(sent, NoAnswer, w1);
  }

  /** A reply that is neither a success, a 520 nor a 401 is rejected after that one request with
      the message the switch picks: fixed texts for 403, 404 and 500, the body for any other status
      with a non-empty body, axios' own message otherwise. The tokens are not touched. */
  lemma ErrorMessages(req: Request, w: World)
    requires w.script != [] && w.script[0].Answer?
    requires var st := w.script[0].response.status; !IsSuccess(st) && st != 520 && st != 401
    ensures var s := Fetch(req, w); var resp := w.script[0].response;
      && s.result.Failure? && s.result.fault.AxiosError? && s.result.fault.response == Some(resp)
      && (resp.status == 403 ==> s.result.fault.message == PermissionDenied)
      && (resp.status == 404 ==> s.result.fault.message == NotFound)
      && (resp.status == 500 ==> s.result.fault.message == ServerError)
      && (resp.status != 403 && resp.status != 404 && resp.status != 500 ==>
            s.result.fault.message == if Truthy(resp.data) then Stringify(resp.data) else DefaultMessage(resp.status))
      && s.world == AfterExchange(w, Authorize(req, w.tokens))
  {
    var sent := Authorize(req, w.tokens);
    FetchOnFailure(req, w);
  }

  // ---------------------------------------------------------------- authService

  /** A successful login stores the access and the refresh token from the body, after one request. */
  lemma LoginStoresBothTokens(username: string, password: string, w: World, auth: Types.AuthResponse)
    requires w.script != [] && IsSuccessAnswer(w.script[0])
    requires w.script[0].response.data.Json? && w.script[0].response.data.decoded == AuthData(auth)
    ensures var c := Login(username, password, w);
      && c.result == Success(w.script[0].response.data)
      && c.world.tokens == w.tokens[AccessKey := auth.access][RefreshKey := auth.refresh]
      && c.world.script == w.script[1..] && |c.world.log| == |w.log| + 1
  {
    FetchOnSuccess(NewRequest(Post, LoginPath, CredentialsBody(username, password)), w);
  }

  /** Whatever the server replies, a login that succeeds returns the last reply's body, which
      holds both tokens, and both stored tokens are that body's; a login that fails never writes
      the refresh token. No other storage key is touched. */
  lemma LoginOutcomes(username: string, password: string, w: World)
    ensures var c := Login(username, password, w);
      && OtherKeys(c.world.tokens) == OtherKeys(w.tokens)
      && (c.result.Success? ==>
            && c.result.value.Json? && c.result.value.decoded.AuthData?
            && AccessKey in c.world.tokens && RefreshKey in c.world.tokens
            && c.world.tokens[AccessKey] == c.result.value.decoded.auth.access
            && c.world.tokens[RefreshKey] == c.result.value.decoded.auth.refresh
            && c.world.log != [] && Last(c.world.log).reply.Answer?
            && Last(c.world.log).reply.response.data == c.result.value)
      && (c.result.Failure? ==> RefreshNotWritten(w.tokens, c.world.tokens))
  {
    var s := Fetch(NewRequest(Post, LoginPath, CredentialsBody(username, password)), w);
    FetchKeeps(NewRequest(Post, LoginPath, CredentialsBody(username, password)), w);
    var access := AccessOf(s.result);
    if s.result.Success? && access.Some? {
      OtherKeysOfAccess(s.world.tokens, access.value);
      var t := s.world.tokens[AccessKey := access.value];
      if s.result.value.data.decoded.AuthData? {
        OtherKeysOfRefresh(t, s.result.value.data.decoded.auth.refresh);
      }
    }
  }

  lemma OtherKeysOfRefresh(tokens: map<string, string>, refresh: string)
    ensures OtherKeys(tokens[RefreshKey := refresh]) == OtherKeys(tokens)
  {
    assert OtherKeys(tokens[RefreshKey := refresh]).Keys == OtherKeys(tokens).Keys;
  }

  /** A login body with an access token but no refresh token: the access token is already stored
      when the second write fails. */
  lemma LoginAccessOnly(username: string, password: string, w: World, access: string)
    requires w.script != [] && IsSuccessAnswer(w.script[0])
    requires w.script[0].response.data.Json? && w.script[0].response.data.decoded == AccessData(access)
    ensures var c := Login(username, password, w);
      c.result == Failure(BadShape) && c.world.tokens == w.tokens[AccessKey := access]
  {
    FetchOnSuccess(NewRequest(Post, LoginPath, CredentialsBody(username, password)), w);
  }

  /** Wrong credentials (a 401 on the login request) with no refresh token stored: the refresh
      branch of the error hook still runs, so login fails with "Session expired" rather than a
      login error, and both tokens are removed. */
  lemma WrongCredentials(username: string, password: string, w: World)
    requires w.script != [] && Is401Answer(w.script[0]) && !Present(Lookup(w.tokens, RefreshKey))
    ensures var c := Login(username, password, w);
      c.result == Failure(PlainError(SessionExpired)) && c.world.tokens == ClearTokens(w.tokens)
  {
    UnauthorizedWithoutRefreshToken(NewRequest(Post, LoginPath, CredentialsBody(username, password)), w);
  }

  /** `refreshToken` sends nothing without a stored refresh token; with one, and a success carrying
      an access token, it writes that access token and leaves the refresh token as it was. */
  lemma RefreshTokenCallOutcomes(w: World, access: string)
    ensures !Present(Lookup(w.tokens, RefreshKey)) ==>
      RefreshTokenCall(w) == Call(Failure(PlainError(NoRefreshToken)), w)
    ensures Present(Lookup(w.tokens, RefreshKey)) && w.script != [] && IsSuccessAnswer(w.script[0])
            && AccessOf(Success(w.script[0].response)) == Some(access) ==>
      var c := RefreshTokenCall(w);
      && c.result == Success(w.script[0].response.data)
      && c.world.tokens == w.tokens[AccessKey := access]
      && c.world.tokens[RefreshKey] == w.tokens[RefreshKey]
  {
    if Present(Lookup(w.tokens, RefreshKey)) && w.script != [] && IsSuccessAnswer(w.script[0]) {
      FetchOnSuccess(RefreshRequest(w.tokens[RefreshKey]), w);
    }
  }

  /** Whatever the server replies, `refreshToken` never writes the refresh token and touches no
      other storage key; when it succeeds, the stored access token is the `access` of the body it
      returns. Without a stored refresh token it fails before sending anything. */
  lemma RefreshTokenCallKeeps(w: World)
    ensures var c := RefreshTokenCall(w);
      && OtherKeys(c.world.tokens) == OtherKeys(w.tokens)
      && RefreshNotWritten(w.tokens, c.world.tokens)
      && (c.result.Success? ==> AccessKey in c.world.tokens && AccessField(c.result.value) == Some(c.world.tokens[AccessKey]))
      && (!Present(Lookup(w.tokens, RefreshKey)) ==> c == Call(Failure(PlainError(NoRefreshToken)), w))
  {
    var refresh := Lookup(w.tokens, RefreshKey);
    if Present(refresh) {
      var s := Fetch(RefreshRequest(refresh.value), w);
      FetchKeeps(RefreshRequest(refresh.value), w);
      var access := AccessOf(s.result);
      if s.result.Success? && access.Some? {
        OtherKeysOfAccess(s.world.tokens, access.value);
      }
    }
  }

  /** `register` touches storage only through the interceptor: its world is the pipeline's, so it
      never writes the refresh token and no other key; it succeeds exactly when the pipeline
      resolves, with the body of the last reply. */
  lemma RegisterOutcomes(username: string, email: string, password: string, w: World)
    ensures var s := Fetch(NewRequest(Post, RegisterPath, RegistrationBody(username, email, password)), w);
      var c := Register(username, email, password, w);
      && c.world == s.world
      && OtherKeys(c.world.tokens) == OtherKeys(w.tokens)
      && RefreshNotWritten(w.tokens, c.world.tokens)
      && (c.result.Success? <==> s.result.Success?)
      && (c.result.Success? ==> c.world.log != [] && Last(c.world.log).reply == Answer(s.result.value)
                                && c.result.value == s.result.value.data)
  {
    FetchKeeps(NewRequest(Post, RegisterPath, RegistrationBody(username, email, password)), w);
  }

  /** A registration answered by a 401, then a refresh that brings an access token, then a 2xx
      on the replay succeeds, and the interceptor has stored the new access token on the way. */
  lemma RegisterAfterRefresh(username: string, email: string, password: string, w: World, access: string)
    requires |w.script| >= 3 && Is401Answer(w.script[0]) && Present(Lookup(w.tokens, RefreshKey))
    requires IsSuccessAnswer(w.script[1]) && AccessOf(Success(w.script[1].response)) == Some(access)
    requires IsSuccessAnswer(w.script[2])
    ensures var c := Register(username, email, password, w);
      c.result == Success(w.script[2].response.data) && c.world.tokens == w.tokens[AccessKey := access]
  {
    var req := NewRequest(Post, RegisterPath, RegistrationBody(username, email, password));
    RefreshThenReplay(req, w, access);
    var sent := Authorize(req, w.tokens);
    var refreshSent := Authorize(RefreshRequest(w.tokens[RefreshKey]), w.tokens);
    var w2 := w.(script := w.script[2..],
                 log := w.log + [Exchange(sent, w.script[0]), Exchange(refreshSent, w.script[1])],
                 tokens := w.tokens[AccessKey := access]);
    FetchOnSuccess(sent.(retried := true, headers := sent.headers[AuthorizationHeader := Bearer(access)]), w2);
  }

  /** A successful registration stores nothing. */
  lemma RegisterStoresNothing(username: string, email: string, password: string, w: World)
    requires w.script != [] && IsSuccessAnswer(w.script[0])
    ensures var c := Register(username, email, password, w);
      c.result == Success(w.script[0].response.data) && c.world.tokens == w.tokens
  {
    FetchOnSuccess(NewRequest(Post, RegisterPath, RegistrationBody(username, email, password)), w);
  }

  /** The auth services' catch blocks on a rejection that went through the switch: login,
      register and refreshToken pass the interceptor's message on (it is never empty, so their own
      fallback texts are not used), and none of them touches the tokens. */
  lemma AuthServicesOnRejection(w: World, username: string, email: string, password: string)
    requires w.script != [] && w.script[0].Answer?
    requires var st := w.script[0].response.status; !IsSuccess(st) && st != 520 && st != 401
    ensures var resp := w.script[0].response;
      var m := PlainError(StatusMessage(resp, DefaultMessage(resp.status)));
      && Login(username, password, w) == Call(Failure(m), AfterExchange(w, Authorize(NewRequest(Post, LoginPath, CredentialsBody(username, password)), w.tokens)))
      && Register(username, email, password, w)
         == Call(Failure(m), AfterExchange(w, Authorize(NewRequest(Post, RegisterPath, RegistrationBody(username, email, password)), w.tokens)))
      && (Present(Lookup(w.tokens, RefreshKey)) ==>
            RefreshTokenCall(w) == Call(Failure(m), AfterExchange(w, Authorize(RefreshRequest(w.tokens[RefreshKey]), w.tokens))))
  {
    MessageNotEmpty(w.script[0].response);
    ErrorMessages(NewRequest(Post, LoginPath, CredentialsBody(username, password)), w);
    ErrorMessages(NewRequest(Post, RegisterPath, RegistrationBody(username, email, password)), w);
    if Present(Lookup(w.tokens, RefreshKey)) {
      ErrorMessages(RefreshRequest(w.tokens[RefreshKey]), w);
    }
  }

  /** The todo services' catch blocks on a rejection that went through the switch: getTodo passes
      the interceptor's message on, while getTodos, createTodo and toggleTodo replace it with their
      own fixed text. */
  lemma TodoServicesOnRejection(w: World, id: int, fields: string)
    requires w.script != [] && w.script[0].Answer?
    requires var st := w.script[0].response.status; !IsSuccess(st) && st != 520 && st != 401
    ensures var resp := w.script[0].response;
      && GetTodo(id, w).result == Failure(PlainError(StatusMessage(resp, DefaultMessage(resp.status))))
      && GetTodos(w).result == Failure(PlainError("Failed to fetch todos. Please try again."))
      && CreateTodo(fields, w).result == Failure(PlainError("Failed to create todo. Please try again."))
      && ToggleTodo(id, w).result == Failure(PlainError("Failed to toggle todo status. Please try again."))
  {
    MessageNotEmpty(w.script[0].response);
    ErrorMessages(NewRequest(Get, TodoPath(id), NoBody), w);
    ErrorMessages(NewRequest(Get, TodosPath, NoBody), w);
    ErrorMessages(NewRequest(Post, TodosPath, TodoFields(fields)), w);
    ErrorMessages(NewRequest(Post, TogglePath(id), NoBody), w);
  }

  lemma MessageNotEmpty(resp: Response)
    ensures StatusMessage(resp, DefaultMessage(resp.status)) != ""
  {
    assert |DefaultMessage(resp.status)| > 0;
  }

  // ---------------------------------------------------------------- todoService loops

  /** The loops leave by their `catch` before `retryCount` reaches `maxRetries`: every failure of
      `updateTodo` and `deleteTodo` carries the "Please try again." message, and the "after multiple
      attempts" error after the loop is never thrown. */
  lemma {:induction false} LoopGivesUpInTime(op: LoopOp, retryCount: nat, w: World)
    requires retryCount < MaxAttempts
    ensures var e := RetryLoop(op, retryCount, w);
      && retryCount <= e.retryCount < MaxAttempts
      && (e.result.Failure? ==> e.result.fault == PlainError(GiveUpMessage(op)))
    decreases MaxAttempts - retryCount
  {
    var s := Fetch(LoopRequest(op), w);
    var a := AttemptResult(op, s.result);
    if a.Failure? && Is520(a.fault) && retryCount < MaxAttempts - 1 {
      LoopGivesUpInTime(op, retryCount + 1, s.world.(waits := s.world.waits + [LoopBackoff(retryCount)]));
    }
  }

  lemma LoopFailures(id: int, fields: string, w: World)
    ensures var r := UpdateTodo(id, fields, w).result;
      r.Failure? ==> r.fault == PlainError("Failed to update todo. Please try again.")
    ensures var r := DeleteTodo(id, w).result;
      r.Failure? ==> r.fault == PlainError("Failed to delete todo. Please try again.")
  {
    LoopGivesUpInTime(UpdateOp(id, fields), 0, w);
    LoopGivesUpInTime(DeleteOp(id), 0, w);
  }

  /** Whatever the server replies, a loop that succeeds returns what the reply to its last request
      gives: the body of a 2xx for an update, and nothing for a delete, whose last reply is a 204. */
  lemma {:induction false} LoopSuccessIsLastReply(op: LoopOp, retryCount: nat, w: World)
    requires retryCount < MaxAttempts
    ensures var e := RetryLoop(op, retryCount, w);
      e.result.Success? ==>
        && e.world.log != [] && Last(e.world.log).reply.Answer?
        && var resp := Last(e.world.log).reply.response;
        && IsSuccess(resp.status)
        && (op.UpdateOp? ==> e.result.value == resp.data)
        && (op.DeleteOp? ==> resp.status == 204 && e.result.value == Absent)
    decreases MaxAttempts - retryCount
  {
    var s := Fetch(LoopRequest(op), w);
    FetchOutcome(LoopRequest(op), w);
    var a := AttemptResult(op, s.result);
    if a.Failure? && Is520(a.fault) && retryCount < MaxAttempts - 1 {
      RetryLoopContinues(op, retryCount, w);
      LoopSuccessIsLastReply(op, retryCount + 1, s.world.(waits := s.world.waits + [LoopBackoff(retryCount)]));
    } else {
      RetryLoopStops(op, retryCount, w);
    }
  }

  /** A 520 rejection reaches a loop only through the error hook's own retries, so when the server
      never answers 520 the loop makes exactly one attempt: it returns that attempt's success or
      gives up, in the world the attempt left. */
  lemma LoopRetriesOnlyAfter520(op: LoopOp, retryCount: nat, w: World)
    requires retryCount < MaxAttempts && No520(w.script)
    ensures var s := Fetch(LoopRequest(op), w); var a := AttemptResult(op, s.result);
      RetryLoop(op, retryCount, w)
      == LoopEnd(if a.Success? then a else Failure(PlainError(GiveUpMessage(op))), s.world, retryCount)
  {
    FetchKeeps(LoopRequest(op), w);
    RetryLoopStops(op, retryCount, w);
  }

  /** `deleteTodo` succeeds only when the reply to its last request is a 204, whatever came before;
      and on any attempt, a success with another status fails at once without a retry. */
  lemma DeleteNeeds204(id: int, retryCount: nat, w: World)
    requires retryCount < MaxAttempts
    ensures var c := DeleteTodo(id, w);
      c.result.Success? ==>
        c.result.value == Absent && c.world.log != [] && Last(c.world.log).reply.Answer?
        && Last(c.world.log).reply.response.status == 204
    ensures var s := Fetch(LoopRequest(DeleteOp(id)), w);
      s.result.Success? && s.result.value.status != 204 ==>
        RetryLoop(DeleteOp(id), retryCount, w)
        == LoopEnd(Failure(PlainError("Failed to delete todo. Please try again.")), s.world, retryCount)
  {
    LoopSuccessIsLastReply(DeleteOp(id), 0, w);
    var s := Fetch(LoopRequest(DeleteOp(id)), w);
    if s.result.Success? && s.result.value.status != 204 {
      RetryLoopStops(DeleteOp(id), retryCount, w);
    }
  }

  /** A first reply of 2xx settles a delete at once: a 204 succeeds and any other status fails,
      after that one request and without a wait. */
  lemma DeleteOnFirstSuccess(id: int, w: World)
    requires w.script != [] && IsSuccessAnswer(w.script[0])
    ensures var c := DeleteTodo(id, w);
      && (w.script[0].response.status == 204 ==> c.result == Success(Absent))
      && (w.script[0].response.status != 204 ==> c.result == Failure(PlainError("Failed to delete todo. Please try again.")))
      && c.world.script == w.script[1..] && |c.world.log| == |w.log| + 1 && c.world.waits == w.waits
  {
    FetchOnSuccess(LoopRequest(DeleteOp(id)), w);
  }

  /** A 520 is first retried by the error hook: replies 520, 520 and then a success make
      `updateTodo` succeed within its first attempt, having waited 2 and 4 seconds. */
  lemma UpdateRecoversInHook(id: int, fields: string, w: World)
    requires |w.script| >= 3 && Is520Answer(w.script[0]) && Is520Answer(w.script[1]) && IsSuccessAnswer(w.script[2])
    ensures var c := UpdateTodo(id, fields, w);
      && c.result == Success(w.script[2].response.data)
      && c.world.waits == w.waits + [2000, 4000]
      && c.world.script == w.script[3..] && |c.world.log| == |w.log| + 3
  {
    Through520s(LoopRequest(UpdateOp(id, fields)), w, 2);
    assert Delays(0, 2) == [2000, 4000];
  }

  /** A 520 reaches a loop only after the error hook's three retries, so a server answering 520
      throughout makes `updateTodo` or `deleteTodo` send twelve requests, waiting 2, 4, 8, 1, 2, 4,
      8, 2, 2, 4 and 8 seconds, before giving up. */
  lemma LoopOn520s(op: LoopOp, w: World)
    requires |w.script| >= 12 && forall i :: 0 <= i < 12 ==> Is520Answer(w.script[i])
    ensures var e := RetryLoop(op, 0, w);
      && e.result == Failure(PlainError(GiveUpMessage(op)))
      && e.world.waits == w.waits + [2000, 4000, 8000, 1000, 2000, 4000, 8000, 2000, 2000, 4000, 8000]
      && e.world.script == w.script[12..] && |e.world.log| == |w.log| + 12
      && e.retryCount == MaxAttempts - 1
  {
    LoopFrom520s(op, 0, w);
    assert LoopDelays(0) == [2000, 4000, 8000, 1000, 2000, 4000, 8000, 2000, 2000, 4000, 8000];
  }

  /** The delays of a loop whose every attempt meets only 520s, from attempt `retryCount` on: the
      error hook's three backoffs in each attempt, and the loop's own between attempts. */
  function LoopDelays(retryCount: nat): seq<nat>
    decreases MaxAttempts - retryCount
  {
    if retryCount >= MaxAttempts - 1 then [2000, 4000, 8000]
    else [2000, 4000, 8000, LoopBackoff(retryCount)] + LoopDelays(retryCount + 1)
  }

  /** From attempt `retryCount` on, a server answering only 520 makes each remaining attempt send
      four requests, and the loop gives up after its last one. */
  lemma {:induction false} LoopFrom520s(op: LoopOp, retryCount: nat, w: World)
    requires retryCount < MaxAttempts
    requires |w.script| >= 4 * (MaxAttempts - retryCount)
    requires forall i :: 0 <= i < 4 * (MaxAttempts - retryCount) ==> Is520Answer(w.script[i])
    ensures var e := RetryLoop(op, retryCount, w);
      && e.result == Failure(PlainError(GiveUpMessage(op)))
      && e.world.waits == w.waits + LoopDelays(retryCount)
      && e.world.script == w.script[4 * (MaxAttempts - retryCount)..]
      && |e.world.log| == |w.log| + 4 * (MaxAttempts - retryCount)
      && e.retryCount == MaxAttempts - 1
    decreases MaxAttempts - retryCount
  {
    AttemptOn520s(op, w);
    var s := Fetch(LoopRequest(op), w);
    if retryCount < MaxAttempts - 1 {
      RetryLoopContinues(op, retryCount, w);
      var w1 := s.world.(waits := s.world.waits + [LoopBackoff(retryCount)]);
      forall i | 0 <= i < 4 * (MaxAttempts - retryCount - 1) ensures Is520Answer(w1.script[i]) {
        assert w1.script[i] == w.script[i + 4];
      }
      LoopFrom520s(op, retryCount + 1, w1);
      LoopShift(w, w1, RetryLoop(op, retryCount + 1, w1).world, retryCount);
    } else {
      RetryLoopStops(op, retryCount, w);
    }
  }

  /** The world after one more attempt of four 520s and the loop's backoff, `w1`, and after the
      remaining attempts, seen from the world `w` before it. */
  lemma LoopShift(w: World, w1: World, w3: World, retryCount: nat)
    requires retryCount < MaxAttempts - 1 && |w.script| >= 4 * (MaxAttempts - retryCount)
    requires w1.script == w.script[4..] && |w1.log| == |w.log| + 4
    requires w1.waits == w.waits + [2000, 4000, 8000] + [LoopBackoff(retryCount)]
    requires w3.waits == w1.waits + LoopDelays(retryCount + 1)
    requires w3.script == w1.script[4 * (MaxAttempts - (retryCount + 1))..]
    requires |w3.log| == |w1.log| + 4 * (MaxAttempts - (retryCount + 1))
    ensures w3.waits == w.waits + LoopDelays(retryCount)
    ensures w3.script == w.script[4 * (MaxAttempts - retryCount)..]
    ensures |w3.log| == |w.log| + 4 * (MaxAttempts - retryCount)
  {
    assert w1.script[4 * (MaxAttempts - (retryCount + 1))..] == w.script[4 * (MaxAttempts - retryCount)..];
    assert w1.waits + LoopDelays(retryCount + 1) == w.waits + LoopDelays(retryCount);
  }

  /** One attempt of a loop answered by four 520s fails with the 520 error after the error hook's
      three retries. */
  lemma AttemptOn520s(op: LoopOp, w: World)
    requires |w.script| >= 4 && forall i :: 0 <= i < 4 ==> Is520Answer(w.script[i])
    ensures var s := Fetch(LoopRequest(op), w); var a := AttemptResult(op, s.result);
      && a.Failure? && Is520(a.fault)
      && s.world == w.(script := w.script[4..], log := s.world.log, waits := w.waits + [2000, 4000, 8000])
      && |s.world.log| == |w.log| + 4
  {
    assert Delays(0, 3) == [2000, 4000, 8000];
    Through520s(LoopRequest(op), w, 3);
  }
}
