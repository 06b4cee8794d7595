/** The transport (src/http/http.ts): option builders for the four verbs, the classification of
    one reply into an outcome, and the single-flight token-refresh coordinator.

    The network is not modelled: a request's reply is an input (`Reply`). The code runs on one
    thread, so the coordinator is a state machine driven by two events: a request that needs a
    refresh (`AuthFailure`) and the settlement of the refresh call (`RefreshSettled`). The host
    calls the coordinator makes (starting the refresh, re-issuing a queued request, toasts and
    modals) are returned as `Effect`s. */
module Http {
  import opened Values
  import TokenStore
  import UserStore

  datatype Method = GET | POST | PUT | DELETE

  /** A query object as its `[key, value]` entries, in the order `Object.keys` lists them. */
  type Query = seq<(string, Val)>
  type Header = map<string, string>

  /** `CustomRequestOptions` before the interceptor runs: an absent key is None. */
  datatype RequestOptions = RequestOptions(url: string, verb: Method, query: Option<Query>,
                                           data: Option<Val>, header: Option<Header>,
                                           hideErrorToast: bool)

  /** `Partial<CustomRequestOptions>` spread last into a builder's literal: a Some key wins. */
  datatype Overrides = Overrides(url: Option<string>, verb: Option<Method>, query: Option<Query>,
                                 data: Option<Val>, header: Option<Header>,
                                 hideErrorToast: Option<bool>)

  const NoOverrides := Overrides(None, None, None, None, None, None)

  /** The object literal `{ url, query, data, method, header, ...options }` shared by the four
      builders; `hideErrorToast` is falsy unless the overrides set it. */
  function Build(url: string, verb: Method, query: Option<Query>, data: Option<Val>,
                 header: Option<Header>, o: Overrides): (r: RequestOptions)
    ensures r.url == (if o.url.Some? then o.url.value else url)
    ensures r.verb == (if o.verb.Some? then o.verb.value else verb)
    ensures r.query == (if o.query.Some? then o.query else query)
    ensures r.data == (if o.data.Some? then o.data else data)
    ensures r.header == (if o.header.Some? then o.header else header)
    ensures r.hideErrorToast <==> o.hideErrorToast == Some(true)
    ensures o == NoOverrides ==> r == RequestOptions(url, verb, query, data, header, false)
  {
    RequestOptions(ArgOr(o.url, url), ArgOr(o.verb, verb),
                   if o.query.Some? then o.query else query,
                   if o.data.Some? then o.data else data,
                   if o.header.Some? then o.header else header,
                   ArgOr(o.hideErrorToast, false))
  }

  /** `httpGet`: a GET without a body unless the overrides add one. */
  function HttpGet(url: string, query: Option<Query>, header: Option<Header>, o: Overrides): (r: RequestOptions)
    ensures o.verb.None? ==> r.verb == GET
    ensures o.data.None? ==> r.data.None?
    ensures o == NoOverrides ==> r == RequestOptions(url, GET, query, None, header, false)
  {
    Build(url, GET, query, None, header, o)
  }

  /** `httpPost`: a POST carrying `data` as its body. */
  function HttpPost(url: string, data: Option<Val>, query: Option<Query>, header: Option<Header>,
                    o: Overrides): (r: RequestOptions)
    ensures o.verb.None? ==> r.verb == POST
    ensures o.data.None? ==> r.data == data
    ensures o == NoOverrides ==> r == RequestOptions(url, POST, query, data, header, false)
  {
    Build(url, POST, query, data, header, o)
  }

  /** `httpPut`: a PUT carrying `data` as its body. */
  function HttpPut(url: string, data: Option<Val>, query: Option<Query>, header: Option<Header>,
                   o: Overrides): (r: RequestOptions)
    ensures o.verb.None? ==> r.verb == PUT
    ensures o.data.None? ==> r.data == data
    ensures o == NoOverrides ==> r == RequestOptions(url, PUT, query, data, header, false)
  {
    Build(url, PUT, query, data, header, o)
  }

  /** `httpDelete`: a DELETE with a query and no body. */
  function HttpDelete(url: string, query: Option<Query>, header: Option<Header>, o: Overrides): (r: RequestOptions)
    ensures o.verb.None? ==> r.verb == DELETE
    ensures o.data.None? ==> r.data.None?
    ensures o == NoOverrides ==> r == RequestOptions(url, DELETE, query, None, header, false)
  {
    Build(url, DELETE, query, None, header, o)
  }

  /** A reply the transport receives: a response with status and body, or a network failure. */
  datatype Response = Response(statusCode: int, body: Envelope)
  datatype Reply = Answered(res: Response) | NetworkError

  const RateLimitNotice := "请求过于频繁，请稍后再试"
  const LoginFailedNotice := "登录失败，请检查账号密码"
  const GenericNotice := "请求错误"
  const NetworkNotice := "网络错误，换个网络试试"
  const NotLoggedInPrompt := "您还未登录或登录已过期，无法进行此操作。是否前往登录页面？"
  const NoRefreshTokenPrompt := "您的登录已过期，无法进行此操作。是否前往登录页面？"
  const RefreshFailedPrompt := "登录状态刷新失败，您的登录已过期。是否前往登录页面？"
  const RefreshedToastText := "token 刷新成功"
  /** The URL `refreshToken` in src/api/login.ts posts to. */
  const RefreshUrl := "/auth/refreshToken"

  /** The ways one reply can end for its request. `Hangs` is the exception thrown inside the
      reply callback: the promise neither resolves nor rejects. `Queued` is a request waiting for
      the refresh; what its promise becomes once the refresh settles is `QueuedFate`. */
  datatype Outcome =
    | Resolved(value: Envelope)
    | RateLimited(reason: Envelope, toast: Option<string>)
    | Hangs(error: string)
    | LoginRejected(reason: Envelope, toast: Option<string>)
    | ReloginPrompt(reason: Envelope, prompt: string)
    | Queued
    | Failed(reason: Envelope, toast: Option<string>)
    | NetworkFailed(notice: string)

  predicate IsSuccessStatus(status: int)
  {
    200 <= status < 300
  }

  /** `ResultEnum.Success0` and `ResultEnum.Success200`. */
  predicate IsSuccessCode(code: Option<int>)
  {
    code == Some(0) || code == Some(200)
  }

  predicate IsAuthFailure(res: Response)
  {
    res.statusCode == 401 || res.body.code == Some(401)
  }

  /** Requests to these endpoints never trigger a refresh. */
  predicate IsLoginUrl(url: string)
    ensures StartsWith(url, "/login") || StartsWith(url, "/auth") || StartsWith(url, "/register") ==> IsLoginUrl(url)
    ensures !Contains(url, "/") ==> !IsLoginUrl(url)
  {
    ContainsShorter(url, "/login", "/");
    ContainsShorter(url, "/auth", "/");
    ContainsShorter(url, "/register", "/");
    Contains(url, "/login") || Contains(url, "/auth") || Contains(url, "/register")
  }

  /** A toast title, or None when the caller set `hideErrorToast`. */
  function Toast(hidden: bool, title: string): (t: Option<string>)
    ensures t.Some? <==> !hidden
  {
    if hidden then None else Some(title)
  }

  /** The text of the error thrown for an unaccepted business code: `请求错误[code]：message`. */
  function ThrownText(body: Envelope): string
  {
    "请求错误[" + (if body.code.Some? then IntToString(body.code.value) else "undefined") + "]："
    + (if body.message.Some? then body.message.value else "undefined")
  }

  /** The reply callbacks of `http`, from the reply to the outcome for the request. The refresh
      token is read from the record only in double-token mode. */
  function Classify(req: RequestOptions, reply: Reply, doubleMode: bool, info: TokenStore.TokenInfo): (o: Outcome)
    // a network failure always shows its toast, whatever hideErrorToast says
    ensures o.NetworkFailed? <==> reply.NetworkError?
    ensures o.NetworkFailed? ==> o.notice == NetworkNotice
    // a 2xx reply resolves with the whole, unchanged envelope iff its business code is 0 or 200
    ensures o.Resolved? <==> reply.Answered? && IsSuccessStatus(reply.res.statusCode) && IsSuccessCode(reply.res.body.code)
    ensures o.Resolved? ==> o.value == reply.res.body
    // any other business code in a 2xx reply except 429 throws: the request never settles
    ensures o.Hangs? <==> reply.Answered? && IsSuccessStatus(reply.res.statusCode)
                          && !IsSuccessCode(reply.res.body.code) && reply.res.body.code != Some(429)
    // 429, as business code of a 2xx reply or as status or code of a non-401 failure
    ensures o.RateLimited? <==>
              reply.Answered? &&
              (if IsSuccessStatus(reply.res.statusCode) then reply.res.body.code == Some(429)
               else !IsAuthFailure(reply.res) && (reply.res.statusCode == 429 || reply.res.body.code == Some(429)))
    ensures o.RateLimited? ==> o.reason == reply.res.body
                               && o.toast == Toast(req.hideErrorToast, MessageOr(reply.res.body.message, RateLimitNotice))
    // a 401 (status or code) of a non-2xx reply to a login endpoint is rejected directly
    ensures o.LoginRejected? <==> reply.Answered? && !IsSuccessStatus(reply.res.statusCode)
                                  && IsAuthFailure(reply.res) && IsLoginUrl(req.url)
    ensures o.LoginRejected? ==> o.reason == reply.res.body
                                 && o.toast == Toast(req.hideErrorToast, MessageOr(reply.res.body.message, LoginFailedNotice))
    // without refresh capability, a 401 rejects at once behind a re-login prompt
    ensures o.ReloginPrompt? <==> reply.Answered? && !IsSuccessStatus(reply.res.statusCode)
                                  && IsAuthFailure(reply.res) && !IsLoginUrl(req.url)
                                  && (!doubleMode || TokenStore.RefreshTokenOf(info) == "")
    ensures o.ReloginPrompt? ==> o.reason == reply.res.body
                                 && o.prompt == (if doubleMode then NoRefreshTokenPrompt else NotLoggedInPrompt)
    // with a refresh token, the request waits for the refresh
    ensures o.Queued? <==> reply.Answered? && !IsSuccessStatus(reply.res.statusCode)
                           && IsAuthFailure(reply.res) && !IsLoginUrl(req.url)
                           && doubleMode && TokenStore.RefreshTokenOf(info) != ""
    // every other failure is rejected with the server's message or the generic text
    ensures o.Failed? ==> o.reason == reply.res.body
                            && o.toast == Toast(req.hideErrorToast, MessageOr(reply.res.body.message, GenericNotice))
  {
    match reply
    case NetworkError => NetworkFailed(NetworkNotice)
    case Answered(res) =>
      var body := res.body;
      if IsSuccessStatus(res.statusCode) then
        if body.code == Some(429) then
          RateLimited(body, Toast(req.hideErrorToast, MessageOr(body.message, RateLimitNotice)))
        else if !IsSuccessCode(body.code) then
          Hangs(ThrownText(body))
        else
          Resolved(body)
      else if IsAuthFailure(res) then
        if IsLoginUrl(req.url) then
          LoginRejected(body, Toast(req.hideErrorToast, MessageOr(body.message, LoginFailedNotice)))
        else if !doubleMode then
          ReloginPrompt(body, NotLoggedInPrompt)
        else if TokenStore.RefreshTokenOf(info) == "" then
          ReloginPrompt(body, NoRefreshTokenPrompt)
        else
          Queued
      else if res.statusCode == 429 || body.code == Some(429) then
        RateLimited(body, Toast(req.hideErrorToast, MessageOr(body.message, RateLimitNotice)))
      else
        Failed(body, Toast(req.hideErrorToast, MessageOr(body.message, GenericNotice)))
  }

  /** The fate of the promise `http` returned, as far as this reply decides it. A rejection's
      reason is the envelope itself, so its `message` is the server's; the network failure
      object has none. */
  function FateOf(o: Outcome): (f: Fate<Envelope>)
    ensures f.Fulfilled? <==> o.Resolved?
    ensures o.Resolved? ==> f.value == o.value
    ensures f.Pending? <==> o.Hangs? || o.Queued?
    ensures o.NetworkFailed? ==> f == Rejected(None)
    ensures f.Rejected? && !o.NetworkFailed? ==> f.message == o.reason.message
  {
    match o
    case Resolved(v) => Fulfilled(v)
    case RateLimited(r, _) => Rejected(r.message)
    case Hangs(_) => Pending
    case LoginRejected(r, _) => Rejected(r.message)
    case ReloginPrompt(r, _) => Rejected(r.message)
    case Queued => Pending
    case Failed(r, _) => Rejected(r.message)
    case NetworkFailed(_) => Rejected(None)
  }

  /** The refresh call goes to a login endpoint: whatever it gets back, it is never queued
      behind itself and never starts another refresh. */
  lemma RefreshCallCannotRecurse(req: RequestOptions, reply: Reply, doubleMode: bool, info: TokenStore.TokenInfo)
    requires req.url == RefreshUrl
    ensures IsLoginUrl(req.url)
    ensures !Classify(req, reply, doubleMode, info).Queued?
    ensures reply.Answered? && !IsSuccessStatus(reply.res.statusCode) && IsAuthFailure(reply.res) ==>
              Classify(req, reply, doubleMode, info).LoginRejected?
  {
    assert StartsWith(RefreshUrl, "/auth");
  }

  /** A 2xx reply carrying business code 401 throws in the callback: it neither settles nor
      reaches the refresh path. */
  lemma SuccessStatusWithAuthCodeHangs(req: RequestOptions, status: int, body: Envelope,
                                       doubleMode: bool, info: TokenStore.TokenInfo)
    requires IsSuccessStatus(status) && body.code == Some(401)
    ensures var o := Classify(req, Answered(Response(status, body)), doubleMode, info);
            o.Hangs? && FateOf(o) == Pending
  {
  }

  // ---------------------------------------------------------------------------------------
  // The refresh coordinator

  /** The module variables `refreshing` and `taskQueue`; a queued task is the request it
      re-issues. */
  datatype CoordState = CoordState(refreshing: bool, queue: seq<RequestOptions>)

  const Idle := CoordState(false, [])

  /** A request that got a 401 and may be refreshed, or the end of the refresh call. */
  datatype Event = AuthFailure(req: RequestOptions) | RefreshSettled(ok: bool)

  /** Host calls the coordinator makes: `tokenStore.refreshToken()`, `http(options)` for a
      queued task, the success toast and the re-login modal after a failed refresh. */
  datatype Effect = StartRefresh | Reissue(req: RequestOptions) | RefreshedToast | ReloginModal

  function Reissues(q: seq<RequestOptions>): (r: seq<Effect>)
    ensures |r| == |q|
    ensures forall i :: 0 <= i < |q| ==> r[i] == Reissue(q[i])
  {
    seq(|q|, i requires 0 <= i < |q| => Reissue(q[i]))
  }

  /** The requests re-issued by a list of effects, in order. */
  function Reissued(effects: seq<Effect>): seq<RequestOptions>
  {
    if effects == [] then []
    else (if effects[0].Reissue? then [effects[0].req] else []) + Reissued(effects[1..])
  }

  /** How many refresh calls a list of effects starts. */
  function RefreshCalls(effects: seq<Effect>): nat
  {
    if effects == [] then 0
    else (if effects[0] == StartRefresh then 1 else 0) + RefreshCalls(effects[1..])
  }

  /** One event: every auth failure is queued and starts the refresh only if none is running;
      the settlement clears the flag and the queue and, on success only, re-issues every queued
      request in enqueue order. */
  function Step(s: CoordState, e: Event): (r: (CoordState, seq<Effect>))
    ensures e.AuthFailure? ==> r.0 == CoordState(true, s.queue + [e.req]) && Reissued(r.1) == []
    ensures RefreshCalls(r.1) == (if e.AuthFailure? && !s.refreshing then 1 else 0)
    ensures e.RefreshSettled? ==> r.0 == Idle && Reissued(r.1) == (if e.ok then s.queue else [])
  {
    ReissuedOfConcat(Reissues(s.queue), [RefreshedToast]);
    ReissuedOfReissues(s.queue);
    match e
    case AuthFailure(req) =>
      (CoordState(true, s.queue + [req]), if s.refreshing then [] else [StartRefresh])
    case RefreshSettled(ok) =>
      (Idle, if ok then Reissues(s.queue) + [RefreshedToast] else [ReloginModal])
  }

  /** A sequence of events, effects concatenated. */
  function Run(s: CoordState, events: seq<Event>): (r: (CoordState, seq<Effect>))
    ensures events != [] && events[|events| - 1].RefreshSettled? ==> r.0 == Idle
    ensures SettleCount(events) == 0 ==> s.queue <= r.0.queue && (r.0.refreshing <==> s.refreshing || events != [])
    decreases |events|
  {
    if events == [] then (s, [])
    else
      var first := Step(s, events[0]);
      var rest := Run(first.0, events[1..]);
      (rest.0, first.1 + rest.1)
  }

  function Failures(reqs: seq<RequestOptions>): (r: seq<Event>)
    ensures |r| == |reqs|
    ensures forall i :: 0 <= i < |reqs| ==> r[i] == AuthFailure(reqs[i])
  {
    seq(|reqs|, i requires 0 <= i < |reqs| => AuthFailure(reqs[i]))
  }

  function SettleCount(events: seq<Event>): nat
  {
    if events == [] then 0
    else (if events[0].RefreshSettled? then 1 else 0) + SettleCount(events[1..])
  }

  /** The refresh call settles only while it is in flight. */
  predicate SettlesOnlyWhileRefreshing(s: CoordState, events: seq<Event>)
    decreases |events|
  {
    events == [] ||
    ((events[0].RefreshSettled? ==> s.refreshing)
     && SettlesOnlyWhileRefreshing(Step(s, events[0]).0, events[1..]))
  }

  /** The queue holds something exactly while a refresh is in flight. */
  predicate Consistent(s: CoordState)
  {
    s.refreshing <==> s.queue != []
  }

  lemma {:induction false} ReissuedOfConcat(a: seq<Effect>, b: seq<Effect>)
    ensures Reissued(a + b) == Reissued(a) + Reissued(b)
    ensures RefreshCalls(a + b) == RefreshCalls(a) + RefreshCalls(b)
    decreases |a|
  {
    if a != [] {
      assert (a + b)[1..] == a[1..] + b;
      ReissuedOfConcat(a[1..], b);
    } else {
      assert a + b == b;
    }
  }

  lemma {:induction false} ReissuedOfReissues(q: seq<RequestOptions>)
    ensures Reissued(Reissues(q)) == q
    ensures RefreshCalls(Reissues(q)) == 0
    decreases |q|
  {
    if q != [] {
      assert Reissues(q)[1..] == Reissues(q[1..]);
      ReissuedOfReissues(q[1..]);
    }
  }

  lemma {:induction false} RunOfConcat(s: CoordState, a: seq<Event>, b: seq<Event>)
    ensures Run(s, a + b) == (Run(Run(s, a).0, b).0, Run(s, a).1 + Run(Run(s, a).0, b).1)
    decreases |a|
  {
    if a == [] {
      assert a + b == b;
      assert Run(s, a) == (s, []);
      var r := Run(s, b);
      assert [] + r.1 == r.1;
      assert r == (r.0, r.1);
    } else {
      var first := Step(s, a[0]);
      assert (a + b)[0] == a[0];
      assert (a + b)[1..] == a[1..] + b;
      RunOfConcat(first.0, a[1..], b);
      var mid := Run(first.0, a[1..]);
      var last := Run(mid.0, b);
      assert Run(s, a + b) == (last.0, first.1 + (mid.1 + last.1));
      assert first.1 + (mid.1 + last.1) == (first.1 + mid.1) + last.1;
    }
  }

  /** Every state reached keeps the queue non-empty exactly while a refresh is in flight. */
  lemma {:induction false} RunKeepsConsistent(s: CoordState, events: seq<Event>)
    requires Consistent(s)
    ensures Consistent(Run(s, events).0)
    decreases |events|
  {
    if events != [] {
      RunKeepsConsistent(Step(s, events[0]).0, events[1..]);
    }
  }

  /** While a refresh is in flight, further auth failures only join the queue, in order,
      and start nothing. */
  lemma {:induction false} FailuresWhileRefreshing(s: CoordState, reqs: seq<RequestOptions>)
    requires s.refreshing
    ensures Run(s, Failures(reqs)) == (CoordState(true, s.queue + reqs), [])
    decreases |reqs|
  {
    if reqs == [] {
      assert s.queue + reqs == s.queue;
    } else {
      var next := CoordState(true, s.queue + [reqs[0]]);
      assert Step(s, Failures(reqs)[0]) == (next, []);
      assert Failures(reqs)[1..] == Failures(reqs[1..]);
      FailuresWhileRefreshing(next, reqs[1..]);
      assert s.queue + [reqs[0]] + reqs[1..] == s.queue + reqs;
      var rest := Run(next, Failures(reqs[1..]));
      assert rest == (CoordState(true, s.queue + reqs), []);
      var none: seq<Effect> := [];
      assert Run(s, Failures(reqs)) == (rest.0, none + rest.1);
      assert none + rest.1 == none;
    }
  }

  /** Any number of auth failures from rest start exactly one refresh call and queue every
      request, the first included, in arrival order. */
  lemma SingleFlight(reqs: seq<RequestOptions>)
    requires reqs != []
    ensures Run(Idle, Failures(reqs)) == (CoordState(true, reqs), [StartRefresh])
  {
    var next := CoordState(true, [reqs[0]]);
    assert Failures(reqs)[0] == AuthFailure(reqs[0]);
    assert Idle.queue + [reqs[0]] == [reqs[0]];
    assert Step(Idle, Failures(reqs)[0]) == (next, [StartRefresh]);
    assert Failures(reqs)[1..] == Failures(reqs[1..]);
    FailuresWhileRefreshing(next, reqs[1..]);
    assert [reqs[0]] + reqs[1..] == reqs;
    var rest := Run(next, Failures(reqs[1..]));
    assert rest == (CoordState(true, reqs), []);
    assert Run(Idle, Failures(reqs)) == (rest.0, [StartRefresh] + rest.1);
    assert [StartRefresh] + rest.1 == [StartRefresh];
  }

  /** A whole refresh episode: one refresh call; on success every queued request is re-issued
      once, in enqueue order; on failure none is, and those requests stay pending. Either way
      the coordinator is back at rest. */
  lemma Episode(reqs: seq<RequestOptions>, ok: bool)
    requires reqs != []
    ensures var (final, effects) := Run(Idle, Failures(reqs) + [RefreshSettled(ok)]);
            && final == Idle
            && RefreshCalls(effects) == 1
            && Reissued(effects) == (if ok then reqs else [])
            && (ok <==> RefreshedToast in effects)
            && (!ok <==> ReloginModal in effects)
  {
    SingleFlight(reqs);
    RunOfConcat(Idle, Failures(reqs), [RefreshSettled(ok)]);
    var tail := Step(CoordState(true, reqs), RefreshSettled(ok)).1;
    var settle := [RefreshSettled(ok)];
    assert settle[1..] == [];
    assert Run(CoordState(true, reqs), settle) == (Idle, tail + []);
    assert tail + [] == tail;
    ReissuedOfConcat([StartRefresh], tail);
    SettlementNotices(reqs, ok);
  }

  /** The settlement shows the success toast exactly on success and the re-login modal exactly
      on failure, and starts no refresh. */
  lemma SettlementNotices(q: seq<RequestOptions>, ok: bool)
    ensures var tail := Step(CoordState(true, q), RefreshSettled(ok)).1;
            && (RefreshedToast in tail <==> ok)
            && (ReloginModal in tail <==> !ok)
            && StartRefresh !in tail
  {
    var tail := Step(CoordState(true, q), RefreshSettled(ok)).1;
    if ok {
      assert tail == Reissues(q) + [RefreshedToast];
      assert tail[|tail| - 1] == RefreshedToast;
      forall i | 0 <= i < |tail| ensures tail[i] != ReloginModal && tail[i] != StartRefresh {
        if i < |q| { assert tail[i] == Reissues(q)[i]; }
      }
    }
  }

  /** The promise of the `i`-th queued request once the refresh has settled with `effects`,
      where `replays[k]` is the fate of the `k`-th re-issued call: its task resolves it with the
      re-issued call, so it adopts that call's fate; when no task ran it never settles. */
  function QueuedFate(effects: seq<Effect>, i: nat, replays: seq<Fate<Envelope>>): Fate<Envelope>
  {
    if i < |Reissued(effects)| && i < |replays| then replays[i] else Pending
  }

  /** After a whole episode, every queued request's own promise adopts the fate of the re-issue
      of that very request when the refresh succeeded, and never settles when it failed. */
  lemma QueuedPromises(reqs: seq<RequestOptions>, ok: bool, replays: seq<Fate<Envelope>>)
    requires reqs != [] && |replays| == |reqs|
    ensures var effects := Run(Idle, Failures(reqs) + [RefreshSettled(ok)]).1;
            forall i :: 0 <= i < |reqs| ==>
              && QueuedFate(effects, i, replays) == (if ok then replays[i] else Pending)
              && (ok ==> |Reissued(effects)| == |reqs| && Reissued(effects)[i] == reqs[i])
  {
    Episode(reqs, ok);
  }

  /** Single flight over any history: the refresh calls started, plus the one in flight at the
      start, are exactly the settlements seen plus the one in flight at the end; so a refresh
      is never started while another one is running. */
  lemma {:induction false} RefreshCallsMatchSettlements(s: CoordState, events: seq<Event>)
    requires SettlesOnlyWhileRefreshing(s, events)
    ensures var (final, effects) := Run(s, events);
            RefreshCalls(effects) + (if s.refreshing then 1 else 0)
              == SettleCount(events) + (if final.refreshing then 1 else 0)
    decreases |events|
  {
    if events != [] {
      var first := Step(s, events[0]);
      RefreshCallsMatchSettlements(first.0, events[1..]);
      ReissuedOfConcat(first.1, Run(first.0, events[1..]).1);
      match events[0] {
        case AuthFailure(_) =>
        case RefreshSettled(ok) =>
          if ok {
            ReissuedOfConcat(Reissues(s.queue), [RefreshedToast]);
            ReissuedOfReissues(s.queue);
          }
      }
    }
  }

  /** The owner of `refreshing` and `taskQueue`. */
  class Coordinator {
    var refreshing: bool
    var taskQueue: seq<RequestOptions>

    function State(): CoordState
      reads this
    {
      CoordState(refreshing, taskQueue)
    }

    constructor()
      ensures State() == Idle
    {
      refreshing := false;
      taskQueue := [];
    }

    /** A 401 with a refresh token: the request is queued, and the refresh starts only if
        none is running. */
    method OnAuthFailure(req: RequestOptions) returns (startRefresh: bool)
      modifies this
      ensures taskQueue == old(taskQueue) + [req]
      ensures refreshing
      ensures startRefresh <==> !old(refreshing)
      ensures (State(), if startRefresh then [StartRefresh] else []) == Step(old(State()), AuthFailure(req))
    {
      taskQueue := taskQueue + [req];
      startRefresh := !refreshing;
      if startRefresh {
        refreshing := true;
      }
    }

    /** The refresh call settled: the flag is cleared; on success every queued task runs once,
        in order (`forEach`); the queue is emptied either way (`finally`). */
    method OnRefreshSettled(ok: bool) returns (effects: seq<Effect>)
      modifies this
      ensures State() == Idle
      ensures Reissued(effects) == if ok then old(taskQueue) else []
      ensures (State(), effects) == Step(old(State()), RefreshSettled(ok))
    {
      refreshing := false;
      if ok {
        effects := [];
        var i := 0;
        while i < |taskQueue|
          invariant 0 <= i <= |taskQueue|
          invariant effects == Reissues(taskQueue[..i])
        {
          effects := effects + [Reissue(taskQueue[i])];
          i := i + 1;
        }
        assert taskQueue[..i] == taskQueue;
        effects := effects + [RefreshedToast];
        ReissuedOfConcat(Reissues(taskQueue), [RefreshedToast]);
        ReissuedOfReissues(taskQueue);
      } else {
        effects := [ReloginModal];
      }
      taskQueue := [];
    }

    /** The `success`/`fail` callbacks of one request: classify the reply, and hand a queued
        request to the coordinator. Every other outcome leaves the flag and the queue alone. */
    method HandleReply(req: RequestOptions, reply: Reply, doubleMode: bool, info: TokenStore.TokenInfo)
      returns (o: Outcome, effects: seq<Effect>)
      modifies this
      ensures o == Classify(req, reply, doubleMode, info)
      ensures o.Queued? ==> (State(), effects) == Step(old(State()), AuthFailure(req))
      ensures !o.Queued? ==> State() == old(State()) && effects == []
    {
      o := Classify(req, reply, doubleMode, info);
      effects := [];
      if o.Queued? {
        var start := OnAuthFailure(req);
        if start {
          effects := [StartRefresh];
        }
      }
    }
  }

  /** The user's answer to any of the re-login modals: both answers log out; only confirming
      navigates to the login page. After a failed refresh the navigation waits for the logout
      to settle; after the other two prompts it does not. */
  method AnswerReloginPrompt(confirm: bool, afterRefresh: bool, logoutReply: Fate<Envelope>,
                             tokens: TokenStore.Store, user: UserStore.Store)
    returns (navigateToLogin: bool)
    modifies tokens, user
    ensures navigateToLogin <==> confirm && !(afterRefresh && logoutReply.Pending?)
    ensures !logoutReply.Pending? ==>
              tokens.Current() == TokenStore.LoggedOut(tokens.doubleMode, old(tokens.Current()))
              && user.userInfo == UserStore.Initial
    ensures logoutReply.Pending? ==>
              tokens.Current() == old(tokens.Current()) && user.userInfo == old(user.userInfo)
  {
    tokens.Logout(logoutReply, user);
    navigateToLogin := confirm && !(afterRefresh && logoutReply.Pending?);
  }
}
