/**
 * The shared HTTP client of the console: a request interceptor that attaches
 * the stored access token as a Bearer credential, and a response interceptor
 * that turns a 401 into at most one token refresh at a time, queues the
 * requests that fail while it runs, and settles them all when it ends.
 *
 * Promises are replaced by discrete events. A failed response is the event
 * `OnResponseError`; the end of the refresh call is `RefreshSucceeded` or
 * `RefreshFailed`, whose outcome is an input of the model. Requests handed to
 * the transport and promises rejected later are appended to `log`.
 */
module Api {
  import opened Wrappers
  import opened Text
  import opened BrowserHost
  import AuthService

  const AuthorizationHeader := "Authorization"
  const DefaultErrorMessage := "An error occurred"

  /** The Bearer credentials of section 2.1 of RFC 6750 for `token`. */
  function BearerCredentials(token: string): string {
    "Bearer " + token
  }

  predicate IsB64TokenChar(c: char) {
    IsAsciiLetter(c) || ('0' <= c <= '9') || c in "-._~+/"
  }

  /** `b64token = 1*( ALPHA / DIGIT / "-" / "." / "_" / "~" / "+" / "/" ) *"="` (RFC 6750, section 2.1). */
  predicate IsB64Token(t: string)
    decreases |t|
  {
    |t| >= 1 && IsB64TokenChar(t[0]) && (IsPadding(t[1..]) || IsB64Token(t[1..]))
  }

  predicate IsPadding(s: string) {
    forall k :: 0 <= k < |s| ==> s[k] == '='
  }

  function DropSpaces(s: string): (r: string)
    ensures r == [] || r[0] != ' '
  {
    if s != [] && s[0] == ' ' then DropSpaces(s[1..]) else s
  }

  /** Reads an `Authorization` value as RFC 6750 Bearer credentials: `"Bearer" 1*SP b64token`. */
  function BearerToken(credentials: string): Option<string> {
    if |credentials| > 6 && credentials[..6] == "Bearer" && credentials[6] == ' ' then
      var token := DropSpaces(credentials[6..]);
      if IsB64Token(token) then Some(token) else None
    else None
  }

  /**
   * The header the interceptor writes carries `token` back to a server that
   * reads RFC 6750 exactly when `token` is a b64token; the client itself
   * never checks the token's syntax.
   */
  lemma BearerRoundTrip(token: string)
    ensures BearerToken(BearerCredentials(token)) == Some(token) <==> IsB64Token(token)
  {
    var credentials := BearerCredentials(token);
    assert credentials[..6] == "Bearer" && credentials[6] == ' ';
    assert credentials[6..] == " " + token;
    assert (" " + token)[1..] == token;
    if IsB64Token(token) {
      assert DropSpaces(credentials[6..]) == token;
    }
  }

  /**
   * The headers a request leaves the request interceptor with, given the
   * truthy access token `localStorage` holds (if any).
   */
  function WithCredentials(headers: map<string, string>, stored: Option<string>): (out: map<string, string>)
    ensures stored.None? ==> out == headers
    ensures stored.Some? ==> AuthorizationHeader in out && out[AuthorizationHeader] == BearerCredentials(stored.value)
    ensures forall h :: h != AuthorizationHeader ==> (h in out <==> h in headers)
    ensures forall h :: h in out && h != AuthorizationHeader ==> out[h] == headers[h]
  {
    if stored.Some? then headers[AuthorizationHeader := BearerCredentials(stored.value)] else headers
  }

  /** The token the request interceptor attaches: only on the client, only when non-empty. */
  function AttachableToken(host: Host): (token: Option<string>)
    reads host
    ensures token.Some? <==> AuthService.IsAuthenticated(host)
    ensures token.Some? ==> token == AuthService.GetToken(host) && token.value != ""
  {
    var stored := AuthService.GetToken(host);
    if stored.Some? && stored.value != "" then stored else None
  }

  /** An axios request configuration: its headers and `_retry` marker are mutated in place. */
  class Request {
    const url: Option<string>
    var headers: map<string, string>
    /** `_retry`: set on the request whose 401 started a refresh. */
    var retry: bool

    constructor (url: Option<string>, headers: map<string, string>)
      ensures this.url == url && this.headers == headers && !retry
    {
      this.url := url;
      this.headers := headers;
      retry := false;
    }
  }

  /** A failed response as the interceptor sees it: `error.config`, `error.response?.status`, `error.response?.data?.detail`, `error.message`. */
  datatype Failure = Failure(config: Request?, status: Option<int>, detail: Option<string>, message: string)

  /** Why a call's promise was rejected. */
  datatype Reason =
    | OriginalError                 // the axios error itself
    | RefreshError(error: string)   // the error the refresh call threw
    | Normalized(message: string)   // `new Error(message)`

  /** What the response interceptor does with a failure right away. */
  datatype Outcome = Rejected(reason: Reason) | Queued | RefreshStarted

  /** An observable effect: a request handed to the transport, or a promise rejected later. */
  datatype Settlement = Sent(request: Request, headers: map<string, string>) | Rejection(request: Request, reason: Reason)

  /** How `processQueue` settles the waiters: `processQueue(null, token)` or `processQueue(error, null)`. */
  datatype QueueResult = Resolve(token: string) | Reject(error: string)

  /** `url?.includes("/auth/login") || url?.includes("/auth/refresh")`. */
  predicate IsAuthEndpoint(url: Option<string>) {
    url.Some? && (Includes(url.value, "/auth/login") || Includes(url.value, "/auth/refresh"))
  }

  /** The rejection message: `detail || message || "An error occurred"`, an empty string falling through. */
  function NormalizedMessage(detail: Option<string>, message: string): (m: string)
    ensures m != ""
    ensures detail.Some? && detail.value != "" ==> m == detail.value
    ensures (detail.None? || detail.value == "") && message != "" ==> m == message
    ensures (detail.None? || detail.value == "") && message == "" ==> m == DefaultErrorMessage
  {
    if detail.Some? && detail.value != "" then detail.value
    else if message != "" then message
    else DefaultErrorMessage
  }

  /** The failures the 401 policy handles: on the client, status 401, a config not yet marked `_retry`. */
  predicate Intercepts(host: Host, failure: Failure)
    reads host, failure.config
  {
    host.isClient && failure.status == Some(401) && failure.config != null && !failure.config.retry
  }

  /** The header the 401 handler writes on a request before replaying it: `Authorization: Bearer <token>`. */
  function WithNewToken(headers: map<string, string>, token: string): map<string, string> {
    headers[AuthorizationHeader := BearerCredentials(token)]
  }

  /** The headers a request is replayed with once the refresh produced `token`. */
  function Replayed(headers: map<string, string>, token: string, stored: Option<string>): map<string, string> {
    WithCredentials(WithNewToken(headers, token), stored)
  }

  /** What settling one waiter that had `headers` when it was queued produces. */
  function Settle(waiter: Request, headers: map<string, string>, result: QueueResult, stored: Option<string>): Settlement {
    match result
    case Resolve(token) => Sent(waiter, Replayed(headers, token, stored))
    case Reject(error) => Rejection(waiter, RefreshError(error))
  }

  /** The headers of `requests`, in order. */
  function HeadersOf(requests: seq<Request>): (all: seq<map<string, string>>)
    reads requests
    ensures |all| == |requests| && forall k :: 0 <= k < |requests| ==> all[k] == requests[k].headers
  {
    if requests == [] then [] else HeadersOf(requests[..|requests| - 1]) + [requests[|requests| - 1].headers]
  }

  /** What settling a queue of waiters produces, in queue order. */
  function SettleAll(waiters: seq<Request>, headers: seq<map<string, string>>, result: QueueResult, stored: Option<string>)
    : (r: seq<Settlement>)
    requires |headers| == |waiters|
    ensures |r| == |waiters|
    ensures forall k :: 0 <= k < |waiters| ==> r[k] == Settle(waiters[k], headers[k], result, stored)
  {
    if waiters == [] then []
    else
      var n := |waiters| - 1;
      SettleAll(waiters[..n], headers[..n], result, stored) + [Settle(waiters[n], headers[n], result, stored)]
  }

  /**
   * A replay carries the stored access token when a non-empty one is
   * stored, since the request interceptor runs again; only otherwise does
   * the new token survive.
   */
  lemma ReplayedCredentials(headers: map<string, string>, token: string, stored: Option<string>)
    ensures AuthorizationHeader in Replayed(headers, token, stored)
    ensures Replayed(headers, token, stored)[AuthorizationHeader] ==
      BearerCredentials(if stored.Some? then stored.value else token)
  {
  }

  /**
   * After a successful refresh every entry the settlement adds, the
   * owner's replay and then the waiters', is a request sent with the
   * credentials `ReplayedCredentials` names.
   */
  lemma {:induction false} RefreshReplaysCarry(waiters: seq<Request>, headers: seq<map<string, string>>, owner: Request,
                                               ownerHeaders: map<string, string>, token: string, stored: Option<string>)
    requires |headers| == |waiters|
    ensures var entries := [Sent(owner, Replayed(ownerHeaders, token, stored))] + SettleAll(waiters, headers, Resolve(token), stored);
      forall k :: 0 <= k < |entries| ==>
        && entries[k].Sent?
        && AuthorizationHeader in entries[k].headers
        && entries[k].headers[AuthorizationHeader] == BearerCredentials(if stored.Some? then stored.value else token)
  {
    var entries := [Sent(owner, Replayed(ownerHeaders, token, stored))] + SettleAll(waiters, headers, Resolve(token), stored);
    forall k | 0 <= k < |entries|
      ensures entries[k].Sent? && AuthorizationHeader in entries[k].headers
      ensures entries[k].headers[AuthorizationHeader] == BearerCredentials(if stored.Some? then stored.value else token)
    {
      if k == 0 {
        ReplayedCredentials(ownerHeaders, token, stored);
      } else {
        ReplayedCredentials(headers[k - 1], token, stored);
      }
    }
  }

  predicate Distinct(requests: seq<Request>) {
    forall i, j :: 0 <= i < j < |requests| ==> requests[i] != requests[j]
  }

  /** The module-level state of the client and the two interceptors. */
  class Coordinator {
    const host: Host
    /** `isRefreshing`. */
    var isRefreshing: bool
    /** `failedQueue`: the requests waiting for the refresh, in arrival order. */
    var failedQueue: seq<Request>
    /** The request whose handler is suspended on the refresh call it started. */
    var owner: Request?
    /** Requests handed to the transport and promises rejected after the fact, in order. */
    var log: seq<Settlement>

    /**
     * The queue is non-empty only while a refresh runs, a refresh runs
     * exactly when some handler owns it, and no request waits twice.
     */
    ghost predicate Valid()
      reads this
    {
      && (failedQueue != [] ==> isRefreshing)
      && (isRefreshing <==> owner != null)
      && Distinct(failedQueue)
      && owner !in failedQueue
    }

    constructor (host: Host)
      ensures Valid() && this.host == host
      ensures !isRefreshing && failedQueue == [] && owner == null && log == []
    {
      this.host := host;
      isRefreshing := false;
      failedQueue := [];
      owner := null;
      log := [];
    }

    /** The request interceptor: `Authorization: Bearer <token>` when a non-empty token is stored. */
    method AttachToken(config: Request)
      modifies config`headers
      ensures config.headers == WithCredentials(old(config.headers), AttachableToken(host))
      ensures AttachableToken(host).None? ==> config.headers == old(config.headers)
    {
      var token := AuthService.GetToken(host);
      if token.Some? && token.value != "" {
        config.headers := config.headers[AuthorizationHeader := BearerCredentials(token.value)];
      }
    }

    /**
     * `api(config)`: axios merges `config` into a new configuration object,
     * the request interceptor runs on that copy, and the copy goes to the
     * transport; `config` itself keeps its headers.
     */
    method Dispatch(config: Request)
      modifies this`log
      ensures log == old(log) + [Sent(config, WithCredentials(config.headers, AttachableToken(host)))]
    {
      var copy := new Request(config.url, config.headers);
      AttachToken(copy);
      log := log + [Sent(config, copy.headers)];
    }

    /** Removes both tokens and sends the browser to the login page. */
    method TearDownSession()
      modifies host
      ensures host.storage == old(host.storage) - {AccessTokenKey, RefreshTokenKey}
      ensures host.location == LoginRoute
    {
      host.storage := host.storage - {AccessTokenKey};
      host.storage := host.storage - {RefreshTokenKey};
      host.location := LoginRoute;
    }

    /**
     * One waiter settled by `processQueue`: on resolve its `.then` callback
     * writes the new Bearer header and calls `api(originalRequest)`; on
     * reject its promise is rejected with the refresh error.
     */
    method SettleOne(waiter: Request, result: QueueResult)
      modifies this`log, waiter`headers
      ensures log == old(log) + [Settle(waiter, old(waiter.headers), result, AttachableToken(host))]
      ensures waiter.headers == if result.Resolve? then WithNewToken(old(waiter.headers), result.token) else old(waiter.headers)
    {
      match result {
        case Resolve(token) =>
          waiter.headers := WithNewToken(waiter.headers, token);
          Dispatch(waiter);
        case Reject(error) =>
          log := log + [Rejection(waiter, RefreshError(error))];
      }
    }

    /**
     * `processQueue`: settles every waiter in arrival order (a resolved waiter
     * takes the new token and is dispatched again; a rejected one records the
     * refresh error), then empties the queue.
     */
    method ProcessQueue(result: QueueResult)
      requires Distinct(failedQueue)
      modifies this`failedQueue, this`log, failedQueue`headers
      ensures failedQueue == []
      ensures log == old(log) + old(SettleAll(failedQueue, HeadersOf(failedQueue), result, AttachableToken(host)))
      ensures forall k :: 0 <= k < |old(failedQueue)| ==>
        old(failedQueue)[k].headers ==
          if result.Resolve? then WithNewToken(old(failedQueue[k].headers), result.token) else old(failedQueue[k].headers)
    {
      ghost var queue := failedQueue;
      ghost var originals := HeadersOf(queue);
      ghost var stored := AttachableToken(host);
      ghost var settled := [];
      var i := 0;
      while i < |failedQueue|
        invariant failedQueue == queue && 0 <= i <= |queue| && |settled| == i
        invariant log == old(log) + settled
        invariant forall k :: 0 <= k < i ==> settled[k] == Settle(queue[k], originals[k], result, stored)
        invariant forall k :: 0 <= k < |queue| ==>
          queue[k].headers == if k < i && result.Resolve? then WithNewToken(originals[k], result.token) else originals[k]
      {
        SettleOne(failedQueue[i], result);
        settled := settled + [Settle(queue[i], originals[i], result, stored)];
        i := i + 1;
      }
      assert settled == SettleAll(queue, originals, result, stored);
      failedQueue := [];
    }

    /**
     * The response interceptor's error handler. On the client, a 401 on a
     * request not yet marked `_retry` is handled by the refresh policy:
     * a login or refresh URL tears the session down and rejects with the
     * original error; while a refresh runs the request joins the queue;
     * otherwise it is marked `_retry` and its handler starts the refresh.
     * Every other failure is rejected with the normalised message.
     */
    method OnResponseError(failure: Failure) returns (outcome: Outcome)
      requires Valid()
      requires failure.config != null ==> failure.config !in failedQueue && failure.config != owner
      modifies this`isRefreshing, this`failedQueue, this`owner, host, failure.config
      ensures Valid() && log == old(log)
      ensures failure.config != null ==> failure.config.headers == old(failure.config.headers)
      ensures !old(Intercepts(host, failure)) ==>
        && outcome == Rejected(Normalized(NormalizedMessage(failure.detail, failure.message)))
        && unchanged(this) && unchanged(host) && (failure.config != null ==> unchanged(failure.config))
      ensures old(Intercepts(host, failure)) && IsAuthEndpoint(failure.config.url) ==>
        && outcome == Rejected(OriginalError)
        && host.storage == old(host.storage) - {AccessTokenKey, RefreshTokenKey} && host.location == LoginRoute
        && unchanged(this) && !failure.config.retry
      ensures old(Intercepts(host, failure)) && !IsAuthEndpoint(failure.config.url) && old(isRefreshing) ==>
        && outcome == Queued
        && failedQueue == old(failedQueue) + [failure.config] && owner == old(owner) && isRefreshing
        && unchanged(host) && !failure.config.retry
      ensures old(Intercepts(host, failure)) && !IsAuthEndpoint(failure.config.url) && !old(isRefreshing) ==>
        && outcome == RefreshStarted
        && isRefreshing && owner == failure.config && failure.config.retry && failedQueue == []
        && unchanged(host)
      ensures outcome == RefreshStarted ==> !old(isRefreshing)
      ensures old(isRefreshing) ==> isRefreshing && owner == old(owner)
    {
      var config := failure.config;
      if host.isClient && failure.status == Some(401) && config != null && !config.retry {
        if IsAuthEndpoint(config.url) {
          TearDownSession();
          return Rejected(OriginalError);
        }
        if isRefreshing {
          failedQueue := failedQueue + [config];
          return Queued;
        }
        config.retry := true;
        isRefreshing := true;
        owner := config;
        return RefreshStarted;
      }
      outcome := Rejected(Normalized(NormalizedMessage(failure.detail, failure.message)));
    }

    /**
     * The replays after a successful refresh: the owner's request takes the
     * new Bearer header and is dispatched once, then every waiter is settled
     * with the token in arrival order. The owner's `api(originalRequest)`
     * call is made before the queued `.then` callbacks run, so it is sent
     * first.
     */
    method ReplayAll(token: string)
      requires Valid() && isRefreshing
      modifies this`failedQueue, this`log, failedQueue`headers, owner`headers
      ensures failedQueue == []
      ensures log == old(log) + [Sent(old(owner), Replayed(old(owner.headers), token, AttachableToken(host)))]
                   + old(SettleAll(failedQueue, HeadersOf(failedQueue), Resolve(token), AttachableToken(host)))
      ensures old(owner).headers == WithNewToken(old(owner.headers), token)
      ensures forall k :: 0 <= k < |old(failedQueue)| ==>
        old(failedQueue)[k].headers == WithNewToken(old(failedQueue[k].headers), token)
    {
      ghost var pending := HeadersOf(failedQueue);
      SettleOne(owner, Resolve(token));
      assert HeadersOf(failedQueue) == pending;
      ProcessQueue(Resolve(token));
    }

    /**
     * The refresh call returned `token`: the owner's request and then every
     * waiter are replayed with it, and `isRefreshing` is reset. Waiters keep
     * their `_retry` marker unset.
     */
    method RefreshSucceeded(token: string)
      requires Valid() && isRefreshing
      modifies this`isRefreshing, this`failedQueue, this`owner, this`log, failedQueue`headers, owner`headers
      ensures Valid() && !isRefreshing && owner == null && failedQueue == []
      ensures log == old(log) + [Sent(old(owner), Replayed(old(owner.headers), token, AttachableToken(host)))]
                   + old(SettleAll(failedQueue, HeadersOf(failedQueue), Resolve(token), AttachableToken(host)))
      ensures old(owner).headers == WithNewToken(old(owner.headers), token)
      ensures old(owner).retry == old(owner.retry)
      ensures forall k :: 0 <= k < |old(failedQueue)| ==>
        && old(failedQueue)[k].headers == WithNewToken(old(failedQueue[k].headers), token)
        && old(failedQueue)[k].retry == old(failedQueue[k].retry)
    {
      ReplayAll(token);
      isRefreshing := false;
      owner := null;
    }

    /**
     * The refresh call threw `error`: every waiter is rejected with it in
     * arrival order, both tokens are removed, the browser is sent to the
     * login page, the owner's call is rejected with the same error, and
     * `isRefreshing` is reset.
     */
    method RefreshFailed(error: string)
      requires Valid() && isRefreshing
      modifies this`isRefreshing, this`failedQueue, this`owner, this`log, failedQueue`headers, host
      ensures Valid() && !isRefreshing && owner == null && failedQueue == []
      ensures log == old(log) + old(SettleAll(failedQueue, HeadersOf(failedQueue), Reject(error), AttachableToken(host)))
                   + [Rejection(old(owner), RefreshError(error))]
      ensures forall k :: |old(log)| <= k < |log| ==> log[k] == Rejection(log[k].request, RefreshError(error))
      ensures forall k :: 0 <= k < |old(failedQueue)| ==>
        old(failedQueue)[k].headers == old(failedQueue[k].headers) && old(failedQueue)[k].retry == old(failedQueue[k].retry)
      ensures host.storage == old(host.storage) - {AccessTokenKey, RefreshTokenKey} && host.location == LoginRoute
    {
      var request := owner;
      ProcessQueue(Reject(error));
      TearDownSession();
      log := log + [Rejection(request, RefreshError(error))];
      isRefreshing := false;
      owner := null;
    }

    /**
     * Several requests fail with 401 while no refresh runs: only the first
     * starts a refresh; every later one waits in the queue, in order.
     */
    method UnauthorizedBurst(requests: seq<Request>) returns (outcomes: seq<Outcome>)
      requires Valid() && !isRefreshing && host.isClient && Distinct(requests)
      requires forall r :: r in requests ==> !r.retry && !IsAuthEndpoint(r.url)
      modifies this`isRefreshing, this`failedQueue, this`owner, host, requests
      ensures Valid() && |outcomes| == |requests|
      ensures forall k :: 0 <= k < |requests| ==> (outcomes[k] == RefreshStarted <==> k == 0)
      ensures forall k :: 1 <= k < |requests| ==> outcomes[k] == Queued
      ensures requests != [] ==> isRefreshing && owner == requests[0] && failedQueue == requests[1..]
    {
      outcomes := [];
      var i := 0;
      while i < |requests|
        invariant 0 <= i <= |requests| && |outcomes| == i && Valid()
        invariant host.isClient
        invariant forall k :: 0 <= k < i ==> (outcomes[k] == RefreshStarted <==> k == 0)
        invariant forall k :: 1 <= k < i ==> outcomes[k] == Queued
        invariant i == 0 ==> !isRefreshing
        invariant i > 0 ==> isRefreshing && owner == requests[0] && failedQueue == requests[1..i]
        invariant forall k :: i <= k < |requests| ==> !requests[k].retry
      {
        var outcome := OnResponseError(Failure(requests[i], Some(401), None, ""));
        outcomes := outcomes + [outcome];
        i := i + 1;
      }
    }
  }
}
