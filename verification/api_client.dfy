/**
 * The authenticated request wrapper of the front end (`apiFetch`): it injects the stored bearer
 * token, and on a 401 answer it tries once to mint a new access token from the stored refresh
 * token, retrying the request exactly once, or logs the user out.
 *
 * The browser's `localStorage` and `window.location.href` are the fields of a `Browser`; the
 * network is a `Network` holding the answers it will give, in order, and the log of the requests
 * it was sent. An answer that is missing, or a `NetworkError`, is a rejected `fetch`.
 */
module ApiClient {
  import opened Common
  import opened JsText

  const AccessKey: string := "access_token"
  const RefreshKey: string := "refresh_token"
  const LoginPath: string := "/login"
  const RefreshPath: string := "/auth/token/refresh/"
  const ContentType: string := "Content-Type"
  const Authorization: string := "Authorization"
  const JsonMime: string := "application/json"
  const Unauthorized: int := 401

  /** A JSON value as handed to `JSON.stringify`; object members keep their order. */
  datatype Json = JString(s: string) | JNumber(n: int) | JObject(members: seq<(string, Json)>)

  /** The forms `init.headers` can take. */
  datatype HeadersInit =
    | NoHeaders                               // `init` or `init.headers` is undefined
    | Record(fields: map<string, string>)     // a plain object
    | Pairs(entries: seq<(string, string)>)   // an array of `[name, value]` pairs
    | HeadersObject                           // a `Headers` instance: an object with no own enumerable properties

  datatype RequestInit = RequestInit(verb: Option<string>, headers: HeadersInit, body: Option<Json>)

  /** A request as it reaches the network. */
  datatype Request = Request(url: string, verb: Option<string>, headers: map<string, string>, body: Option<Json>)

  /**
   * The members of a response body that the front end reads. `Unparseable` stands for a body
   * on which `response.json()` rejects.
   */
  datatype ResponseBody =
    | Unparseable
    | JsonObject(access: Option<string>, refresh: Option<string>, error: Option<string>)

  datatype Response = Response(status: int, body: ResponseBody)

  /** `response.ok` */
  predicate Ok(r: Response) {
    200 <= r.status <= 299
  }

  /** What the network does with one call: answer it, or make `fetch` reject. */
  datatype Reply = Answer(response: Response) | NetworkError

  /** A settled promise: resolved with a value, or rejected (and the rejection propagates). */
  datatype Settled<T> = Resolved(value: T) | Rejected

  function Stored(storage: map<string, string>, key: string): Option<string> {
    if key in storage then Some(storage[key]) else None
  }

  /** The store after a logout: both token keys removed, every other key kept. */
  function LoggedOut(storage: map<string, string>): (s: map<string, string>)
    ensures AccessKey !in s && RefreshKey !in s
    ensures forall k :: k in storage && k != AccessKey && k != RefreshKey ==> k in s && s[k] == storage[k]
    ensures forall k :: k in s ==> k in storage
  {
    storage - {AccessKey, RefreshKey}
  }

  /** Logging out a second time changes nothing. */
  lemma LoggedOutIdempotent(storage: map<string, string>)
    ensures LoggedOut(LoggedOut(storage)) == LoggedOut(storage)
  {
  }

  class Browser {
    /** `localStorage` */
    var storage: map<string, string>
    /**
     * The page's URL as set by a full-page assignment to `window.location.href`; client-side
     * router navigation (the history API) is not recorded here.
     */
    var href: string

    constructor (storage: map<string, string>, href: string)
      ensures this.storage == storage && this.href == href
    {
      this.storage := storage;
      this.href := href;
    }

    /** `localStorage.getItem(key)` */
    function GetItem(key: string): Option<string>
      reads this
    {
      Stored(storage, key)
    }

    /** `localStorage.setItem(key, value)` */
    method SetItem(key: string, value: string)
      modifies this
      ensures storage == old(storage)[key := value] && href == old(href)
    {
      storage := storage[key := value];
    }

    /** `localStorage.removeItem(key)`: no error when the key is absent. */
    method RemoveItem(key: string)
      modifies this
      ensures storage == old(storage) - {key} && href == old(href)
    {
      storage := storage - {key};
    }

    /** `window.location.href = url` */
    method Navigate(url: string)
      modifies this
      ensures href == url && storage == old(storage)
    {
      href := url;
    }
  }

  function NextReply(replies: seq<Reply>): Reply {
    if replies == [] then NetworkError else replies[0]
  }

  function LaterReplies(replies: seq<Reply>): seq<Reply> {
    if replies == [] then [] else replies[1..]
  }

  /** The answers left after `n` calls: each call consumes one, and an exhausted network stays empty. */
  function Drop(replies: seq<Reply>, n: nat): (rest: seq<Reply>)
    ensures |rest| == if n < |replies| then |replies| - n else 0
    ensures forall k :: 0 <= k < |rest| ==> rest[k] == replies[n + k]
  {
    if n < |replies| then replies[n..] else []
  }

  /** The promise `fetch` returns, settled by one reply. */
  function Settle(reply: Reply): Settled<Response> {
    match reply
    case Answer(r) => Resolved(r)
    case NetworkError => Rejected
  }

  class Network {
    /** The answers still to be given, one per call, in order. */
    var replies: seq<Reply>
    /** Every request issued so far. */
    var sent: seq<Request>

    constructor (replies: seq<Reply>)
      ensures this.replies == replies && sent == []
    {
      this.replies := replies;
      sent := [];
    }

    /** `fetch(url, init)`: logs the request and consumes the next answer. */
    method Fetch(req: Request) returns (reply: Reply)
      modifies this
      ensures sent == old(sent) + [req]
      ensures reply == NextReply(old(replies)) && replies == LaterReplies(old(replies))
    {
      sent := sent + [req];
      reply := NextReply(replies);
      replies := LaterReplies(replies);
    }
  }

  /** `forceLogOut`: clear both tokens, then send the page to the login route. */
  method ForceLogOut(b: Browser)
    modifies b
    ensures b.storage == LoggedOut(old(b.storage)) && b.href == LoginPath
  {
    b.RemoveItem(AccessKey);
    b.RemoveItem(RefreshKey);
    b.Navigate(LoginPath);
  }

  /** Two forced logouts in a row leave the same state as one, without failing on missing keys. */
  method ForceLogOutTwice(b: Browser)
    modifies b
    ensures b.storage == LoggedOut(old(b.storage)) && b.href == LoginPath
  {
    ForceLogOut(b);
    ForceLogOut(b);
    LoggedOutIdempotent(old(b.storage));
  }

  /** The POST that `refreshAccessToken` sends: only the refresh token, as JSON. */
  function RefreshRequest(apiUrl: string, refreshToken: string): (r: Request)
    ensures r.url == apiUrl + RefreshPath && r.verb == Some("POST")
    ensures r.headers == map[ContentType := JsonMime]
    ensures r.body == Some(JObject([("refresh", JString(refreshToken))]))
  {
    Request(apiUrl + RefreshPath, Some("POST"), map[ContentType := JsonMime],
            Some(JObject([("refresh", JString(refreshToken))])))
  }

  /**
   * What `refreshAccessToken` settles with, given the refresh endpoint's reply: a non-empty new
   * access token, `null`, or a rejection when `fetch` or `response.json()` rejects.
   */
  function RefreshOutcome(reply: Reply): (o: Settled<Option<string>>)
    ensures o == Rejected <==>
      reply.NetworkError? || (Ok(reply.response) && reply.response.body.Unparseable?)
    ensures o.Resolved? && o.value.Some? <==>
      reply.Answer? && Ok(reply.response) && reply.response.body.JsonObject? && Truthy(reply.response.body.access)
    ensures o.Resolved? && o.value.Some? ==> o.value == reply.response.body.access
  {
    match reply
    case NetworkError => Rejected
    case Answer(response) =>
      if !Ok(response) then Resolved(None)
      else match response.body
        case Unparseable => Rejected
        case JsonObject(access, _, _) => if Truthy(access) then Resolved(access) else Resolved(None)
  }

  /**
   * `refreshAccessToken`: one call to the refresh endpoint; the new access token is stored only
   * when it is returned, and the `refresh` member of the answer is never stored.
   */
  method RefreshAccessToken(b: Browser, net: Network, apiUrl: string, refreshToken: string)
    returns (o: Settled<Option<string>>)
    modifies b, net
    ensures net.sent == old(net.sent) + [RefreshRequest(apiUrl, refreshToken)]
    ensures net.replies == LaterReplies(old(net.replies))
    ensures o == RefreshOutcome(NextReply(old(net.replies)))
    ensures b.storage == if o.Resolved? && o.value.Some? then old(b.storage)[AccessKey := o.value.value] else old(b.storage)
    ensures b.href == old(b.href)
  {
    var reply := net.Fetch(RefreshRequest(apiUrl, refreshToken));
    if reply.NetworkError? {
      return Rejected;
    }
    var response := reply.response;
    if !Ok(response) {
      return Resolved(None);
    }
    if response.body.Unparseable? {
      return Rejected;
    }
    var data := response.body;
    if Truthy(data.access) {
      b.SetItem(AccessKey, data.access.value);
      return Resolved(data.access);
    }
    return Resolved(None);
  }

  const DefaultHeaders: map<string, string> := map[ContentType := JsonMime]

  /** `init?.headers && typeof init.headers === 'object' && !Array.isArray(init.headers)` */
  predicate IsPlainObject(h: HeadersInit) {
    h.Record? || h.HeadersObject?
  }

  /** The keys "0", "1", …, up to but not including the decimal form of `n`. */
  function IndexKeys(n: nat): set<string> {
    if n == 0 then {} else IndexKeys(n - 1) + {DecimalString(n - 1)}
  }

  /** The index keys are exactly the decimal forms of the indices below `n`. */
  lemma {:induction false} IndexKeysMembership(n: nat, k: string)
    ensures k in IndexKeys(n) <==> exists i :: 0 <= i < n && k == DecimalString(i)
  {
    if n > 0 {
      IndexKeysMembership(n - 1, k);
      if k == DecimalString(n - 1) {
        assert 0 <= n - 1 < n && k == DecimalString(n - 1);
      }
      if exists i :: 0 <= i < n && k == DecimalString(i) {
        var i :| 0 <= i < n && k == DecimalString(i);
        if i < n - 1 {
          assert 0 <= i < n - 1 && k == DecimalString(i);
        }
      }
    }
  }

  /**
   * Spreading an array into an object literal: its indices "0", "1", … become the keys, each
   * mapped to the pair's string form `name,value`.
   */
  function SpreadPairs(entries: seq<(string, string)>): (m: map<string, string>)
    ensures m.Keys == IndexKeys(|entries|)
    ensures forall i :: 0 <= i < |entries| ==> DecimalString(i) in m && m[DecimalString(i)] == entries[i].0 + "," + entries[i].1
    ensures forall k :: k in m ==> AllDigits(k)
  {
    if entries == [] then map[]
    else
      var n := |entries| - 1;
      var earlier := SpreadPairs(entries[..n]);
      assert |entries[..n]| == n && forall i :: 0 <= i < n ==> entries[..n][i] == entries[i];
      assert forall i :: 0 <= i < n ==> DecimalString(i) != DecimalString(n) by {
        forall i | 0 <= i < n {
          DecimalStringInjective(i, n);
        }
      }
      earlier[DecimalString(n) := entries[n].0 + "," + entries[n].1]
  }

  /** `{ ...(h || {}) }`: the own enumerable properties of the caller's headers. */
  function Spread(h: HeadersInit): map<string, string> {
    match h
    case NoHeaders => map[]
    case Record(fields) => fields
    case Pairs(entries) => SpreadPairs(entries)
    case HeadersObject => map[]
  }

  /**
   * The headers of the first call: the JSON default, overridden by the caller's plain-object
   * headers, and the stored access token as a bearer credential over both.
   */
  function FirstHeaders(init: RequestInit, accessToken: Option<string>): (h: map<string, string>)
    ensures Truthy(accessToken) ==> Authorization in h && h[Authorization] == "Bearer " + accessToken.value
    ensures !Truthy(accessToken) ==>
      (Authorization in h <==> init.headers.Record? && Authorization in init.headers.fields)
    ensures init.headers.Record? ==>
      forall k :: k in init.headers.fields && (k != Authorization || !Truthy(accessToken)) ==>
        k in h && h[k] == init.headers.fields[k]
    ensures !init.headers.Record? || ContentType !in init.headers.fields ==> ContentType in h && h[ContentType] == JsonMime
    ensures forall k :: k in h ==> k == ContentType || k == Authorization || (init.headers.Record? && k in init.headers.fields)
  {
    var merged := if IsPlainObject(init.headers) then DefaultHeaders + Spread(init.headers) else DefaultHeaders;
    if Truthy(accessToken) then merged[Authorization := "Bearer " + accessToken.value] else merged
  }

  /**
   * The headers of the retry: the JSON default, whatever `init.headers` spreads to (arrays
   * included), and the new token as a bearer credential over both.
   */
  function RetryHeaders(init: RequestInit, newToken: string): (h: map<string, string>)
    ensures Authorization in h && h[Authorization] == "Bearer " + newToken
    ensures forall k :: k in Spread(init.headers) && k != Authorization ==> k in h && h[k] == Spread(init.headers)[k]
    ensures ContentType !in Spread(init.headers) ==> ContentType in h && h[ContentType] == JsonMime
    ensures forall k :: k in h ==> k == ContentType || k == Authorization || k in Spread(init.headers)
  {
    DefaultHeaders + Spread(init.headers) + map[Authorization := "Bearer " + newToken]
  }

  /**
   * Headers given as an array of pairs never reach the first call, while the retry carries them
   * under the array's index keys.
   */
  lemma PairHeadersOnlyReachTheRetry(init: RequestInit, accessToken: Option<string>, newToken: string)
    requires init.headers.Pairs? && |init.headers.entries| > 0
    ensures "0" !in FirstHeaders(init, accessToken)
    ensures var pair := init.headers.entries[0];
      "0" in RetryHeaders(init, newToken) && RetryHeaders(init, newToken)["0"] == pair.0 + "," + pair.1
  {
    assert DecimalString(0) == "0";
  }

  /** One run of `apiFetch`: what it settles with, the state it leaves, and every call it made. */
  datatype Trace = Trace(result: Settled<Response>, storage: map<string, string>, href: string, calls: seq<Request>)

  /** The first call of a run: the caller's request with the first-call headers. */
  function FirstRequest(storage: map<string, string>, input: string, init: RequestInit): Request {
    Request(input, init.verb, FirstHeaders(init, Stored(storage, AccessKey)), init.body)
  }

  /** The retry: the caller's request again, with the retry headers. */
  function RetryRequest(input: string, init: RequestInit, newToken: string): Request {
    Request(input, init.verb, RetryHeaders(init, newToken), init.body)
  }

  /**
   * The state machine of `apiFetch` from the store and location it starts in and the answers
   * the network gives. Both tokens are read before the first call.
   */
  function ApiFetchSpec(storage: map<string, string>, href: string, replies: seq<Reply>,
                        apiUrl: string, input: string, init: RequestInit): (t: Trace)
    ensures 1 <= |t.calls| <= 3 && t.calls[0] == FirstRequest(storage, input, init)
    ensures |t.calls| > 1 ==> Truthy(Stored(storage, RefreshKey)) && t.calls[1] == RefreshRequest(apiUrl, storage[RefreshKey])
    ensures |t.calls| == 3 ==> AccessKey in t.storage && t.calls[2] == RetryRequest(input, init, t.storage[AccessKey])
    ensures t.href == href || (t.href == LoginPath && t.storage == LoggedOut(storage))
    ensures RefreshKey in t.storage ==> RefreshKey in storage && t.storage[RefreshKey] == storage[RefreshKey]
    ensures forall k :: k in t.storage && k != AccessKey ==> k in storage && t.storage[k] == storage[k]
  {
    var first := FirstRequest(storage, input, init);
    var refreshToken := Stored(storage, RefreshKey);
    match NextReply(replies)
    case NetworkError => Trace(Rejected, storage, href, [first])
    case Answer(response) =>
      if response.status != Unauthorized then Trace(Resolved(response), storage, href, [first])
      else if !Truthy(refreshToken) then Trace(Resolved(response), LoggedOut(storage), LoginPath, [first])
      else
        var refreshCall := RefreshRequest(apiUrl, refreshToken.value);
        var rest := LaterReplies(replies);
        match RefreshOutcome(NextReply(rest))
        case Rejected => Trace(Rejected, storage, href, [first, refreshCall])
        case Resolved(None) => Trace(Resolved(response), LoggedOut(storage), LoginPath, [first, refreshCall])
        case Resolved(Some(newToken)) =>
          Trace(Settle(NextReply(LaterReplies(rest))), storage[AccessKey := newToken], href,
                [first, refreshCall, RetryRequest(input, init, newToken)])
  }

  /** `apiFetch(input, init)` */
  method ApiFetch(b: Browser, net: Network, apiUrl: string, input: string, init: RequestInit)
    returns (r: Settled<Response>)
    modifies b, net
    ensures |old(net.sent)| <= |net.sent| && net.sent[..|old(net.sent)|] == old(net.sent)
    ensures Trace(r, b.storage, b.href, net.sent[|old(net.sent)|..])
         == ApiFetchSpec(old(b.storage), old(b.href), old(net.replies), apiUrl, input, init)
    ensures net.replies == Drop(old(net.replies), |net.sent| - |old(net.sent)|)
  {
    ghost var replies := net.replies;
    ghost var before := net.sent;
    var accessToken := b.GetItem(AccessKey);
    var refreshToken := b.GetItem(RefreshKey);

    var combinedHeaders := DefaultHeaders;
    if IsPlainObject(init.headers) {
      combinedHeaders := combinedHeaders + Spread(init.headers);
    }
    if Truthy(accessToken) {
      combinedHeaders := combinedHeaders[Authorization := "Bearer " + accessToken.value];
    }

    var reply := net.Fetch(Request(input, init.verb, combinedHeaders, init.body));
    if reply.NetworkError? {
      return Rejected;
    }
    var response := reply.response;
    if response.status != Unauthorized {
      return Resolved(response);
    }

    if !Truthy(refreshToken) {
      ForceLogOut(b);
      return Resolved(response);
    }

    var newAccessToken := RefreshAccessToken(b, net, apiUrl, refreshToken.value);
    if newAccessToken.Rejected? {
      return Rejected;
    }
    if !Truthy(newAccessToken.value) {
      ForceLogOut(b);
      return Resolved(response);
    }

    var retry := net.Fetch(RetryRequest(input, init, newAccessToken.value.value));
    r := Settle(retry);
    assert net.sent[|before|..] == [FirstRequest(old(b.storage), input, init),
                                     RefreshRequest(apiUrl, refreshToken.value),
                                     RetryRequest(input, init, newAccessToken.value.value)];
  }

  /** A first answer other than 401 is handed back after one call, with the store untouched. */
  lemma OtherStatusPassesThrough(storage: map<string, string>, href: string, replies: seq<Reply>,
                                 apiUrl: string, input: string, init: RequestInit, response: Response)
    requires NextReply(replies) == Answer(response) && response.status != Unauthorized
    ensures ApiFetchSpec(storage, href, replies, apiUrl, input, init)
         == Trace(Resolved(response), storage, href, [FirstRequest(storage, input, init)])
  {
  }

  /**
   * A 401 with no usable refresh token (absent, or the empty string a login without one stores)
   * logs out and hands back the 401, with no refresh and no retry.
   */
  lemma UnauthorizedWithoutRefreshTokenLogsOut(storage: map<string, string>, href: string, replies: seq<Reply>,
                                               apiUrl: string, input: string, init: RequestInit, response: Response)
    requires NextReply(replies) == Answer(response) && response.status == Unauthorized
    requires !Truthy(Stored(storage, RefreshKey))
    ensures ApiFetchSpec(storage, href, replies, apiUrl, input, init)
         == Trace(Resolved(response), LoggedOut(storage), LoginPath, [FirstRequest(storage, input, init)])
  {
  }

  /**
   * A 401 followed by a refresh answer that is not ok, or ok without an access token, logs out
   * and hands back the original 401 after exactly the first call and the refresh call.
   */
  lemma FailedRefreshLogsOut(storage: map<string, string>, href: string, replies: seq<Reply>,
                             apiUrl: string, input: string, init: RequestInit, response: Response)
    requires NextReply(replies) == Answer(response) && response.status == Unauthorized
    requires Truthy(Stored(storage, RefreshKey))
    requires RefreshOutcome(NextReply(LaterReplies(replies))) == Resolved(None)
    ensures ApiFetchSpec(storage, href, replies, apiUrl, input, init)
         == Trace(Resolved(response), LoggedOut(storage), LoginPath,
                  [FirstRequest(storage, input, init), RefreshRequest(apiUrl, storage[RefreshKey])])
  {
  }

  /**
   * A 401 followed by a successful refresh stores the new token and retries exactly once with
   * it; the retry's outcome is the result, whatever its status.
   */
  lemma SuccessfulRefreshRetriesOnce(storage: map<string, string>, href: string, replies: seq<Reply>,
                                     apiUrl: string, input: string, init: RequestInit, response: Response, newToken: string)
    requires NextReply(replies) == Answer(response) && response.status == Unauthorized
    requires Truthy(Stored(storage, RefreshKey))
    requires RefreshOutcome(NextReply(LaterReplies(replies))) == Resolved(Some(newToken))
    ensures var t := ApiFetchSpec(storage, href, replies, apiUrl, input, init);
      && t.result == Settle(NextReply(LaterReplies(LaterReplies(replies))))
      && t.storage == storage[AccessKey := newToken]
      && t.href == href
      && |t.calls| == 3
      && t.calls[2].headers[Authorization] == "Bearer " + newToken
  {
  }

  /**
   * A rejected `fetch`, or a refresh answer whose body does not parse, rejects the whole call:
   * no logout, no change to the store or the location.
   */
  lemma RejectionPropagates(storage: map<string, string>, href: string, replies: seq<Reply>,
                            apiUrl: string, input: string, init: RequestInit)
    requires NextReply(replies).NetworkError?
      || (NextReply(replies).Answer? && NextReply(replies).response.status == Unauthorized
          && Truthy(Stored(storage, RefreshKey)) && RefreshOutcome(NextReply(LaterReplies(replies))).Rejected?)
    ensures var t := ApiFetchSpec(storage, href, replies, apiUrl, input, init);
      t.result == Rejected && t.storage == storage && t.href == href
  {
  }

  /**
   * The login scenario: with the pair A1/R1 stored, a call answered 401 is refreshed with R1,
   * A2 comes back, and the retry carries `Bearer A2`; the retry's answer is the result.
   */
  lemma RefreshScenario(apiUrl: string, input: string, retried: Response)
    ensures var storage := map[AccessKey := "A1", RefreshKey := "R1"];
      var init := RequestInit(None, NoHeaders, None);
      var replies := [Answer(Response(401, JsonObject(None, None, None))),
                      Answer(Response(200, JsonObject(Some("A2"), None, None))),
                      Answer(retried)];
      var t := ApiFetchSpec(storage, "/events", replies, apiUrl, input, init);
      && t.calls[0].headers[Authorization] == "Bearer A1"
      && t.calls[1].body == Some(JObject([("refresh", JString("R1"))]))
      && t.calls[2].headers[Authorization] == "Bearer A2"
      && t.result == Resolved(retried)
      && t.storage == map[AccessKey := "A2", RefreshKey := "R1"]
  {
  }

  /** The string `localStorage.setItem` stores for a member that may be missing (`String(undefined)`). */
  function Stringified(v: Option<string>): string {
    if v.Some? then v.value else "undefined"
  }

  /**
   * The token write after a successful login or sign-up: the access token as given, and the
   * refresh token or the empty string when the answer has none.
   */
  method StoreTokens(b: Browser, access: Option<string>, refresh: Option<string>)
    modifies b
    ensures b.storage == old(b.storage)[AccessKey := Stringified(access)]
                                       [RefreshKey := if Truthy(refresh) then refresh.value else ""]
    ensures b.href == old(b.href)
  {
    b.SetItem(AccessKey, Stringified(access));
    b.SetItem(RefreshKey, if Truthy(refresh) then refresh.value else "");
  }

  /** The header's logout button: both tokens removed; the route change is left to the router. */
  method LogOut(b: Browser)
    modifies b
    ensures b.storage == LoggedOut(old(b.storage)) && b.href == old(b.href)
  {
    b.RemoveItem(AccessKey);
    b.RemoveItem(RefreshKey);
  }

  /**
   * After a login whose answer has no refresh token, the first 401 logs the user out: the
   * stored empty refresh token is falsy.
   */
  lemma LoginWithoutRefreshThenUnauthorized(storage: map<string, string>, access: Option<string>, href: string,
                                            replies: seq<Reply>, apiUrl: string, input: string, init: RequestInit)
    requires NextReply(replies).Answer? && NextReply(replies).response.status == Unauthorized
    ensures var s := storage[AccessKey := Stringified(access)][RefreshKey := ""];
      var t := ApiFetchSpec(s, href, replies, apiUrl, input, init);
      t.href == LoginPath && t.storage == LoggedOut(s) && |t.calls| == 1
  {
  }
}
