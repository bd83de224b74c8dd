/**
 * The HTTP client of the mobile app (src/api/index.js): a request interceptor that attaches
 * the stored access token as a bearer credential, and a response interceptor that answers
 * one 401 by renewing the access token once and replaying the request once.
 *
 * The network and the storage failures are not run: what the refresh endpoint answers, what
 * the replay answers and whether a storage read or write throws are fields of `Env`, and the
 * calls the handler makes are returned as a list.
 */
module ApiClient {
  import opened Outcomes
  import opened Storage

  const AuthorizationHeader: string := "Authorization"
  const BearerPrefix: string := "Bearer "
  const Unauthorized: int := 401

  /** The credentials of the bearer scheme (section 2.1 of RFC 6750): the scheme name, one
      space, then the token. */
  function BearerValue(access: string): (h: string)
    ensures |h| == |BearerPrefix| + |access|
    ensures h[..|BearerPrefix|] == BearerPrefix && h[|BearerPrefix|..] == access
  {
    BearerPrefix + access
  }

  /** The token a bearer credential carries, if it is one. */
  function TokenOf(h: string): Option<string>
  {
    if |h| >= |BearerPrefix| && h[..|BearerPrefix|] == BearerPrefix then Some(h[|BearerPrefix|..]) else None
  }

  /** The header gives back exactly the token it was built from. */
  lemma BearerRoundTrip(access: string)
    ensures TokenOf(BearerValue(access)) == Some(access)
  {
  }

  /** The request interceptor's effect on the headers: None when reading the stored pair
      throws (the request is then rejected), otherwise the headers to send. */
  function AuthorizedHeaders(items: Items, headers: map<string, string>): (r: Option<map<string, string>>)
    ensures r.None? <==> ReadTokens(items).Unparsable?
    ensures r.Some? && ReadTokens(items).Parsed? && ReadTokens(items).pair.access != "" ==>
      r.value == headers[AuthorizationHeader := BearerValue(ReadTokens(items).pair.access)]
    ensures r.Some? && !(ReadTokens(items).Parsed? && ReadTokens(items).pair.access != "") ==> r.value == headers
  {
    match ReadTokens(items)
    case Unparsable => None
    case NoTokens => Some(headers)
    case Parsed(p) =>
      if p.access != "" then Some(headers[AuthorizationHeader := BearerValue(p.access)]) else Some(headers)
  }

  /** The request carries a bearer credential exactly when a pair with an access token is stored. */
  lemma BearerIffStoredAccess(items: Items, headers: map<string, string>)
    requires AuthorizationHeader !in headers
    requires AuthorizedHeaders(items, headers).Some?
    ensures AuthorizationHeader in AuthorizedHeaders(items, headers).value <==>
            TokensKey in items && ReadTokens(items).Parsed? && ReadTokens(items).pair.access != ""
  {
  }

  datatype HttpResponse = HttpResponse(status: int, body: string)

  /** What a request sent through bare axios comes back with. */
  datatype Reply = Answered(response: HttpResponse) | Refused(failure: Option<HttpResponse>)

  /** The environment of one run of the response handler. */
  datatype Env = Env(
    getItemFails: bool,         // AsyncStorage.getItem("tokens") throws
    refreshed: Option<string>,  // the access token POST /token/refresh/ returns, or None if it fails
    setItemFails: bool,         // AsyncStorage.setItem("tokens", ...) throws
    replay: Reply)              // what the replayed request comes back with

  datatype NetCall = RefreshCall(refresh: string) | ReplayCall(authorization: string)

  /** How the promise the handler returns settles. */
  datatype Settled =
    | Resolved(response: HttpResponse)                 // the replay's response reaches the caller
    | RejectedOriginal                                 // the original error is rethrown
    | RejectedReplay(replyResponse: Option<HttpResponse>) // the replay's own error reaches the caller
    | CrashedNoResponse                                // reading status of a missing response throws

  /** Everything one run of the response handler decides. */
  datatype Handling = Handling(
    settled: Settled,
    calls: seq<NetCall>,
    items: Items,
    retry: bool,
    replayAuthorization: Option<string>)

  /** The session teardown: "user" then "tokens" removed. */
  function Cleared(items: Items): (c: Items)
    ensures UserKey !in c && TokensKey !in c
    ensures forall k :: k in items && k != UserKey && k != TokensKey ==> k in c && c[k] == items[k]
  {
    items - {UserKey} - {TokensKey}
  }

  /** The response interceptor's error handler, for an error whose request was (`retried`)
      or was not yet marked `_retry`. */
  function HandleError(response: Option<HttpResponse>, retried: bool, items: Items, env: Env): (h: Handling)
    ensures |h.calls| <= 2
    ensures h.calls != [] ==> h.calls[0].RefreshCall?
    ensures |h.calls| == 2 ==> h.calls[1].ReplayCall? && h.replayAuthorization == Some(h.calls[1].authorization)
    ensures h.retry <==> retried || (response.Some? && response.value.status == Unauthorized)
  {
    if response.None? then Handling(CrashedNoResponse, [], items, retried, None)
    else if response.value.status != Unauthorized || retried then Handling(RejectedOriginal, [], items, retried, None)
    else if env.getItemFails then Handling(RejectedOriginal, [], Cleared(items), true, None)
    else match ReadTokens(items)
      case NoTokens => Handling(RejectedOriginal, [], items, true, None)
      case Unparsable => Handling(RejectedOriginal, [], Cleared(items), true, None)
      case Parsed(p) =>
        var refresh := [RefreshCall(p.refresh)];
        if env.refreshed.None? || env.setItemFails then
          Handling(RejectedOriginal, refresh, Cleared(items), true, None)
        else
          var auth := BearerValue(env.refreshed.value);
          Handling(match env.replay
                   case Answered(r) => Resolved(r)
                   case Refused(r) => RejectedReplay(r),
                   refresh + [ReplayCall(auth)],
                   items[TokensKey := Tokens(p.(access := env.refreshed.value))],
                   true, Some(auth))
  }

  /** An error other than 401, or one whose request is already marked, is rethrown as it is,
      with no call made and the store untouched. */
  lemma PassThrough(r: HttpResponse, retried: bool, items: Items, env: Env)
    requires r.status != Unauthorized || retried
    ensures HandleError(Some(r), retried, items, env) == Handling(RejectedOriginal, [], items, retried, None)
  {
  }

  /** A 401 with no stored pair makes no call, rethrows the 401 and leaves the store as it was. */
  lemma NoTokensNoRefresh(r: HttpResponse, items: Items, env: Env)
    requires r.status == Unauthorized && !env.getItemFails && ReadTokens(items).NoTokens?
    ensures HandleError(Some(r), false, items, env) == Handling(RejectedOriginal, [], items, true, None)
  {
  }

  /** A successful renewal stores the new access token beside the old refresh token, replays
      the request with the new token, and hands the caller whatever the replay gives; a
      failed replay is not handled again and the renewed pair stays stored. */
  lemma RenewalStoresAndReplays(r: HttpResponse, items: Items, env: Env, p: TokenPair, access: string)
    requires r.status == Unauthorized && !env.getItemFails && ReadTokens(items) == Parsed(p)
    requires env.refreshed == Some(access) && !env.setItemFails
    ensures var h := HandleError(Some(r), false, items, env);
      && h.items == items[TokensKey := Tokens(TokenPair(access, p.refresh))]
      && h.calls == [RefreshCall(p.refresh), ReplayCall(BearerValue(access))]
      && (env.replay.Answered? ==> h.settled == Resolved(env.replay.response))
      && (env.replay.Refused? ==> h.settled == RejectedReplay(env.replay.failure))
  {
  }

  /** A failed renewal (the call fails, or reading or writing the pair throws) tears the
      session down and rethrows the original 401; nothing is replayed. */
  lemma FailedRenewalClears(r: HttpResponse, items: Items, env: Env)
    requires r.status == Unauthorized
    requires env.getItemFails || ReadTokens(items).Unparsable? ||
             (ReadTokens(items).Parsed? && (env.refreshed.None? || env.setItemFails))
    ensures var h := HandleError(Some(r), false, items, env);
      && h.settled == RejectedOriginal && h.items == Cleared(items) && h.replayAuthorization.None?
      && forall c :: c in h.calls ==> c.RefreshCall?
  {
  }

  /** No renewal storm: the error handler marks the request before anything else, so if the
      same request object fails again (with any status) the second run makes no call at all,
      and over both runs at most one renewal is made. */
  lemma AtMostOneRenewal(r1: HttpResponse, r2: Option<HttpResponse>, items: Items, env1: Env, env2: Env)
    requires r1.status == Unauthorized
    ensures var h1 := HandleError(Some(r1), false, items, env1);
      var h2 := HandleError(r2, h1.retry, h1.items, env2);
      && h1.retry
      && (r2.Some? ==> h2.calls == [] && h2.items == h1.items)
      && |h1.calls + h2.calls| <= 2
      && forall i, j :: 0 <= i < j < |h1.calls + h2.calls| ==>
           !((h1.calls + h2.calls)[i].RefreshCall? && (h1.calls + h2.calls)[j].RefreshCall?)
  {
    var h1 := HandleError(Some(r1), false, items, env1);
    var h2 := HandleError(r2, h1.retry, h1.items, env2);
    assert h2.calls == [];
    assert h1.calls + h2.calls == h1.calls;
  }

  /** The request object axios hands to the interceptors. */
  class RequestConfig {
    var headers: map<string, string>
    var retry: bool

    constructor (headers: map<string, string>)
      ensures this.headers == headers && !retry
    {
      this.headers := headers;
      this.retry := false;
    }
  }

  /** A failed request: its config object, and the response if one came back. */
  datatype AxiosError = AxiosError(config: RequestConfig, response: Option<HttpResponse>)

  /** The request interceptor: true when the request goes out, with the headers it carries.
      `readFails` is a rejection of the storage read, which rejects the request. */
  method OnRequest(config: RequestConfig, storage: AsyncStorage, readFails: bool) returns (proceed: bool)
    modifies config
    ensures proceed <==> !readFails && AuthorizedHeaders(storage.items, old(config.headers)).Some?
    ensures proceed ==> config.headers == AuthorizedHeaders(storage.items, old(config.headers)).value
    ensures !proceed ==> config.headers == old(config.headers)
    ensures config.retry == old(config.retry)
  {
    if readFails {
      return false;
    }
    var tokens := ReadTokens(storage.items);
    if tokens.Unparsable? {
      return false;
    }
    if tokens.Parsed? && tokens.pair.access != "" {
      config.headers := config.headers[AuthorizationHeader := BearerValue(tokens.pair.access)];
    }
    proceed := true;
  }

  /** Removes the two keys of the session. */
  method ClearSession(storage: AsyncStorage)
    modifies storage
    ensures storage.items == Cleared(old(storage.items))
  {
    storage.RemoveItem(UserKey);
    storage.RemoveItem(TokensKey);
  }

  /** The response interceptor's error handler. */
  method OnResponseError(error: AxiosError, storage: AsyncStorage, env: Env) returns (settled: Settled, calls: seq<NetCall>)
    modifies error.config, storage
    ensures var h := HandleError(error.response, old(error.config.retry), old(storage.items), env);
      && settled == h.settled && calls == h.calls
      && storage.items == h.items && error.config.retry == h.retry
      && error.config.headers ==
           if h.replayAuthorization.Some? then old(error.config.headers)[AuthorizationHeader := h.replayAuthorization.value]
           else old(error.config.headers)
  {
    var original := error.config;
    calls := [];
    if error.response.None? {
      return CrashedNoResponse, [];
    }
    if error.response.value.status == Unauthorized && !original.retry {
      original.retry := true;
      if env.getItemFails {
        ClearSession(storage);
        return RejectedOriginal, [];
      }
      var tokens := ReadTokens(storage.items);
      if tokens.Unparsable? {
        ClearSession(storage);
        return RejectedOriginal, [];
      }
      if tokens.Parsed? {
        calls := [RefreshCall(tokens.pair.refresh)];
        if env.refreshed.None? {
          ClearSession(storage);
          return RejectedOriginal, calls;
        }
        var access := env.refreshed.value;
        if env.setItemFails {
          ClearSession(storage);
          return RejectedOriginal, calls;
        }
        storage.SetItem(TokensKey, Tokens(tokens.pair.(access := access)));
        original.headers := original.headers[AuthorizationHeader := BearerValue(access)];
        calls := calls + [ReplayCall(original.headers[AuthorizationHeader])];
        settled := match env.replay
          case Answered(r) => Resolved(r)
          case Refused(r) => RejectedReplay(r);
        return;
      }
    }
    settled := RejectedOriginal;
  }
}
