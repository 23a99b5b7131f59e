/**
 * The older client (GrooveApiClient/GrooveClient.cs): the same parameter
 * builder and paths, but each catalog call takes an optional user token
 * that it turns into `Bearer <token>` itself, the client version is the
 * constant "1", and there is no refresh wrapper: every operation makes at
 * most one transport call.
 */
module LegacyClient {
  import opened Wrappers
  import opened Text
  import opened Http
  import opened RequestBuilder
  import opened UserAuthorization
  import opened TokenCache
  import opened ClientCalls

  /** The X-Client-Version the old client always sends. */
  const LegacyVersion: string := "1"

  /** FormatRequestHeadersAsync's Authorization value: present exactly for a non-null token (even an empty one). */
  function BearerOf(userToken: Option<string>): (a: Option<string>)
    ensures a.Some? <==> userToken.Some?
    ensures userToken.Some? ==> a.value == "Bearer " + userToken.value && |a.value| == 7 + |userToken.value|
  {
    if userToken.Some? then Some("Bearer " + userToken.value) else None
  }

  /** The old header dictionary: the client name, version "1", and `Bearer <token>` exactly when a token is given. */
  lemma LegacyHeaders(h: Headers, userToken: Option<string>)
    requires IsRequestHeaders(h, LegacyVersion, BearerOf(userToken))
    ensures h[ClientNameHeader] == ClientName && h[ClientVersionHeader] == "1"
    ensures AuthorizationHeader in h <==> userToken.Some?
    ensures userToken.Some? ==> h[AuthorizationHeader] == "Bearer " + userToken.value
    ensures h.Keys <= {ClientNameHeader, ClientVersionHeader, AuthorizationHeader}
  {
  }

  /**
   * Without the refresh wrapper an operation fetches no user header and
   * calls the transport at most once: exactly once when a request was
   * built, and its response is the result.
   */
  lemma {:induction false} SingleTransportCall(before: Option<AccessToken>, after: Option<AccessToken>, clientId: string,
                                               clientSecret: string, env: Environment, version: string, mode: SendMode,
                                               isRequest: (Request, string) -> bool, r: Result<ApiResponse, ClientError>,
                                               fetches: seq<bool>, sent: seq<Request>, built: Option<Request>)
    requires !mode.UserAuthorized?
    requires Served(before, after, clientId, clientSecret, env, None, version, mode, isRequest, r, fetches, sent, built)
    ensures fetches == [] && |sent| <= 1
    ensures |sent| == 1 <==> built.Some?
    ensures |sent| == 1 ==> r == Outcome(env.send(0, sent[0]))
    ensures sent == [] ==> r.Failure? && r.error in {AuthenticationFailed, NoApplicationToken}
  {
    var renewal := RenewalResult(before, clientId, clientSecret, env.clock, env.authenticate);
    var app := AppToken(renewal);
    if app.Success? {
      DispatchedShape(mode, None, version, env.send, built.value, r, fetches, sent);
    } else {
      assert renewal.Failure? ==> renewal.error == AuthenticationFailed;
    }
  }

  /** The old browse, which has no genre, builds exactly the requests the current browse builds without one. */
  lemma LegacyBrowseIsGenrelessBrowse(ns: MemberName, source: FlagsValue, itemType: MemberName, orderBy: Option<MemberName>,
                                      maxItems: Option<int32>, page: Option<int32>, country: Option<string>,
                                      language: Option<string>, continuationToken: Option<string>, q: Request, t: string)
    ensures PagedBrowseShape(ns, source, itemType, orderBy, maxItems, page, country, language, continuationToken)(q, t)
        <==> BrowseShape(ns, source, itemType, None, orderBy, maxItems, page, country, language, continuationToken)(q, t)
  {
    BrowseWithoutGenreIsPaged(q.parameters, t, orderBy, maxItems, page, language, country, continuationToken);
  }

  class Client {
    const cache: AuthenticationCache

    /** The old client owns its cache, built from the marketplace credentials. */
    constructor (clientId: string, clientSecret: string)
      ensures fresh(cache)
      ensures cache.clientId == clientId && cache.clientSecret == clientSecret && cache.token == None
    {
      cache := new AuthenticationCache(clientId, clientSecret);
    }

    /** The first step of FormatRequestParametersAsync: the cached token, renewed if need be. */
    method ApplicationToken(env: Environment) returns (t: Result<string, ClientError>)
      modifies cache
      ensures cache.token == TokenAfter(old(cache.token),
        RenewalResult(old(cache.token), cache.clientId, cache.clientSecret, env.clock, env.authenticate))
      ensures t == AppToken(RenewalResult(old(cache.token), cache.clientId, cache.clientSecret, env.clock, env.authenticate))
    {
      var renewal, calls := cache.CheckAndRenewToken(env.clock, env.authenticate);
      t := AppToken(renewal);
    }

    // -------------------------------------------------------------------
    // Search and lookup
    // -------------------------------------------------------------------

    method SearchApi(env: Environment, ns: MemberName, query: Option<string>, source: Option<FlagsValue>,
                     filter: FlagsValue, language: Option<string>, country: Option<string>, maxItems: Option<int32>,
                     continuationToken: Option<string>, userToken: Option<string>)
      returns (r: Result<ApiResponse, ClientError>, fetches: seq<bool>, sent: seq<Request>, ghost built: Option<Request>)
      modifies cache
      ensures Served(old(cache.token), cache.token, cache.clientId, cache.clientSecret, env, None, LegacyVersion,
        Headed(BearerOf(userToken)), SearchShape(ns, query, source, filter, language, country, maxItems, continuationToken), r, fetches, sent, built)
    {
      var token := ApplicationToken(env);
      if token.Failure? {
        return Failure(token.error), [], [], None;
      }
      var p := SearchParameters(token.value, query, source, filter, language, country, maxItems, continuationToken);
      var request := Request(Get, Hostname, SearchPath(ns), p, None, NoBody);
      r, fetches, sent := Dispatch(Headed(BearerOf(userToken)), None, LegacyVersion, request, env.send);
      built := Some(request);
    }

    method Search(env: Environment, ns: MemberName, query: Option<string>, source: Option<FlagsValue>, filter: FlagsValue,
                  language: Option<string>, country: Option<string>, maxItems: Option<int32>, userToken: Option<string>)
      returns (r: Result<ApiResponse, ClientError>, fetches: seq<bool>, sent: seq<Request>, ghost built: Option<Request>)
      modifies cache
      ensures Served(old(cache.token), cache.token, cache.clientId, cache.clientSecret, env, None, LegacyVersion,
        Headed(BearerOf(userToken)), SearchShape(ns, query, source, filter, language, country, maxItems, None), r, fetches, sent, built)
    {
      r, fetches, sent, built := SearchApi(env, ns, query, source, filter, language, country, maxItems, None, userToken);
    }

    method SearchContinuation(env: Environment, ns: MemberName, continuationToken: Option<string>, userToken: Option<string>)
      returns (r: Result<ApiResponse, ClientError>, fetches: seq<bool>, sent: seq<Request>, ghost built: Option<Request>)
      modifies cache
      ensures Served(old(cache.token), cache.token, cache.clientId, cache.clientSecret, env, None, LegacyVersion,
        Headed(BearerOf(userToken)), SearchShape(ns, None, None, DefaultFilter, None, None, None, continuationToken), r, fetches, sent, built)
    {
      r, fetches, sent, built := SearchApi(env, ns, None, None, DefaultFilter, None, None, None, continuationToken, userToken);
    }

    method LookupApi(env: Environment, itemIds: seq<string>, source: Option<FlagsValue>, language: Option<string>,
                     country: Option<string>, extras: FlagsValue, continuationToken: Option<string>,
                     userToken: Option<string>)
      returns (r: Result<ApiResponse, ClientError>, fetches: seq<bool>, sent: seq<Request>, ghost built: Option<Request>)
      modifies cache
      ensures Served(old(cache.token), cache.token, cache.clientId, cache.clientSecret, env, None, LegacyVersion,
        Headed(BearerOf(userToken)), LookupShape(itemIds, source, language, country, extras, continuationToken), r, fetches, sent, built)
    {
      var token := ApplicationToken(env);
      if token.Failure? {
        return Failure(token.error), [], [], None;
      }
      var p := LookupParameters(token.value, source, language, country, extras, continuationToken);
      var request := Request(Get, Hostname, LookupPath(JoinIds(itemIds)), p, None, NoBody);
      r, fetches, sent := Dispatch(Headed(BearerOf(userToken)), None, LegacyVersion, request, env.send);
      built := Some(request);
    }

    method Lookup(env: Environment, itemIds: seq<string>, source: Option<FlagsValue>, language: Option<string>,
                  country: Option<string>, extras: FlagsValue, userToken: Option<string>)
      returns (r: Result<ApiResponse, ClientError>, fetches: seq<bool>, sent: seq<Request>, ghost built: Option<Request>)
      modifies cache
      ensures Served(old(cache.token), cache.token, cache.clientId, cache.clientSecret, env, None, LegacyVersion,
        Headed(BearerOf(userToken)), LookupShape(itemIds, source, language, country, extras, None), r, fetches, sent, built)
    {
      r, fetches, sent, built := LookupApi(env, itemIds, source, language, country, extras, None, userToken);
    }

    /** The single-id overload: a one-element list. */
    method LookupOne(env: Environment, itemId: string, source: Option<FlagsValue>, language: Option<string>,
                     country: Option<string>, extras: FlagsValue, userToken: Option<string>)
      returns (r: Result<ApiResponse, ClientError>, fetches: seq<bool>, sent: seq<Request>, ghost built: Option<Request>)
      modifies cache
      ensures Served(old(cache.token), cache.token, cache.clientId, cache.clientSecret, env, None, LegacyVersion,
        Headed(BearerOf(userToken)), LookupShape([itemId], source, language, country, extras, None), r, fetches, sent, built)
    {
      r, fetches, sent, built := LookupApi(env, [itemId], source, language, country, extras, None, userToken);
    }

    method LookupContinuation(env: Environment, itemIds: seq<string>, continuationToken: Option<string>, userToken: Option<string>)
      returns (r: Result<ApiResponse, ClientError>, fetches: seq<bool>, sent: seq<Request>, ghost built: Option<Request>)
      modifies cache
      ensures Served(old(cache.token), cache.token, cache.clientId, cache.clientSecret, env, None, LegacyVersion,
        Headed(BearerOf(userToken)), LookupShape(itemIds, None, None, None, NoExtras, continuationToken), r, fetches, sent, built)
    {
      r, fetches, sent, built := LookupApi(env, itemIds, None, None, None, NoExtras, continuationToken, userToken);
    }

    method LookupOneContinuation(env: Environment, itemId: string, continuationToken: Option<string>, userToken: Option<string>)
      returns (r: Result<ApiResponse, ClientError>, fetches: seq<bool>, sent: seq<Request>, ghost built: Option<Request>)
      modifies cache
      ensures Served(old(cache.token), cache.token, cache.clientId, cache.clientSecret, env, None, LegacyVersion,
        Headed(BearerOf(userToken)), LookupShape([itemId], None, None, None, NoExtras, continuationToken), r, fetches, sent, built)
    {
      r, fetches, sent, built := LookupApi(env, [itemId], None, None, None, NoExtras, continuationToken, userToken);
    }

    // -------------------------------------------------------------------
    // Browse and discovery
    // -------------------------------------------------------------------

    method BrowseApi(env: Environment, ns: MemberName, source: FlagsValue, itemType: MemberName, orderBy: Option<MemberName>,
                     maxItems: Option<int32>, page: Option<int32>, country: Option<string>, language: Option<string>,
                     continuationToken: Option<string>, userToken: Option<string>)
      returns (r: Result<ApiResponse, ClientError>, fetches: seq<bool>, sent: seq<Request>, ghost built: Option<Request>)
      modifies cache
      ensures Served(old(cache.token), cache.token, cache.clientId, cache.clientSecret, env, None, LegacyVersion,
        Headed(BearerOf(userToken)), PagedBrowseShape(ns, source, itemType, orderBy, maxItems, page, country, language, continuationToken), r, fetches, sent, built)
    {
      var token := ApplicationToken(env);
      if token.Failure? {
        return Failure(token.error), [], [], None;
      }
      var p := PagedParameters(token.value, orderBy, maxItems, page, language, country, continuationToken);
      var request := Request(Get, Hostname, BrowsePath(ns, source, itemType), p, None, NoBody);
      r, fetches, sent := Dispatch(Headed(BearerOf(userToken)), None, LegacyVersion, request, env.send);
      built := Some(request);
    }

    method Browse(env: Environment, ns: MemberName, source: FlagsValue, itemType: MemberName, orderBy: Option<MemberName>,
                  maxItems: Option<int32>, page: Option<int32>, country: Option<string>, language: Option<string>,
                  userToken: Option<string>)
      returns (r: Result<ApiResponse, ClientError>, fetches: seq<bool>, sent: seq<Request>, ghost built: Option<Request>)
      modifies cache
      ensures Served(old(cache.token), cache.token, cache.clientId, cache.clientSecret, env, None, LegacyVersion,
        Headed(BearerOf(userToken)), PagedBrowseShape(ns, source, itemType, orderBy, maxItems, page, country, language, None), r, fetches, sent, built)
    {
      r, fetches, sent, built := BrowseApi(env, ns, source, itemType, orderBy, maxItems, page, country, language, None, userToken);
    }

    method BrowseContinuation(env: Environment, ns: MemberName, source: FlagsValue, itemType: MemberName,
                              continuationToken: Option<string>, userToken: Option<string>)
      returns (r: Result<ApiResponse, ClientError>, fetches: seq<bool>, sent: seq<Request>, ghost built: Option<Request>)
      modifies cache
      ensures Served(old(cache.token), cache.token, cache.clientId, cache.clientSecret, env, None, LegacyVersion,
        Headed(BearerOf(userToken)), PagedBrowseShape(ns, source, itemType, None, None, None, None, None, continuationToken), r, fetches, sent, built)
    {
      r, fetches, sent, built := BrowseApi(env, ns, source, itemType, None, None, None, None, None, continuationToken, userToken);
    }

    /** Discovery always builds its headers from a null user token. */
    method Discover(env: Environment, ns: MemberName, discoveryType: string, country: Option<string>,
                    language: Option<string>, genre: Option<string>)
      returns (r: Result<ApiResponse, ClientError>, fetches: seq<bool>, sent: seq<Request>, ghost built: Option<Request>)
      modifies cache
      ensures Served(old(cache.token), cache.token, cache.clientId, cache.clientSecret, env, None, LegacyVersion,
        Headed(None), DiscoverShape(ns, discoveryType, country, language, genre), r, fetches, sent, built)
    {
      var token := ApplicationToken(env);
      if token.Failure? {
        return Failure(token.error), [], [], None;
      }
      var p := DiscoverParameters(token.value, language, country, genre);
      var request := Request(Get, Hostname, DiscoverPath(ns, discoveryType), p, None, NoBody);
      r, fetches, sent := Dispatch(Headed(None), None, LegacyVersion, request, env.send);
      built := Some(request);
    }

    method Spotlight(env: Environment, ns: MemberName, language: Option<string>, country: Option<string>)
      returns (r: Result<ApiResponse, ClientError>, fetches: seq<bool>, sent: seq<Request>, ghost built: Option<Request>)
      modifies cache
      ensures Served(old(cache.token), cache.token, cache.clientId, cache.clientSecret, env, None, LegacyVersion,
        Headed(None), DiscoverShape(ns, "spotlight", country, language, None), r, fetches, sent, built)
    {
      r, fetches, sent, built := Discover(env, ns, "spotlight", country, language, None);
    }

    method NewReleases(env: Environment, ns: MemberName, genre: Option<string>, language: Option<string>, country: Option<string>)
      returns (r: Result<ApiResponse, ClientError>, fetches: seq<bool>, sent: seq<Request>, ghost built: Option<Request>)
      modifies cache
      ensures Served(old(cache.token), cache.token, cache.clientId, cache.clientSecret, env, None, LegacyVersion,
        Headed(None), DiscoverShape(ns, "newreleases", country, language, genre), r, fetches, sent, built)
    {
      r, fetches, sent, built := Discover(env, ns, "newreleases", country, language, genre);
    }

    method BrowseGenres(env: Environment, ns: MemberName, country: Option<string>, language: Option<string>)
      returns (r: Result<ApiResponse, ClientError>, fetches: seq<bool>, sent: seq<Request>, ghost built: Option<Request>)
      modifies cache
      ensures Served(old(cache.token), cache.token, cache.clientId, cache.clientSecret, env, None, LegacyVersion,
        Headless, GenresShape(ns, country, language), r, fetches, sent, built)
    {
      var token := ApplicationToken(env);
      if token.Failure? {
        return Failure(token.error), [], [], None;
      }
      var p := BuildParameters(token.value, None, language, country, None);
      var request := Request(Get, Hostname, GenresPath(ns), p, None, NoBody);
      r, fetches, sent := Dispatch(Headless, None, LegacyVersion, request, env.send);
      built := Some(request);
    }

    // -------------------------------------------------------------------
    // Collection and playlists: the user token is accepted and dropped
    // -------------------------------------------------------------------

    method CollectionOperation(env: Environment, ns: MemberName, operation: MemberName, payload: string,
                               userToken: Option<string>)
      returns (r: Result<ApiResponse, ClientError>, fetches: seq<bool>, sent: seq<Request>, ghost built: Option<Request>)
      modifies cache
      ensures Served(old(cache.token), cache.token, cache.clientId, cache.clientSecret, env, None, LegacyVersion,
        Headless, CollectionShape(ns, operation, payload), r, fetches, sent, built)
    {
      var token := ApplicationToken(env);
      if token.Failure? {
        return Failure(token.error), [], [], None;
      }
      var p := BuildParameters(token.value, None, None, None, None);
      var request := Request(Post, Hostname, CollectionPath(ns, operation), p, None, Json(payload));
      r, fetches, sent := Dispatch(Headless, None, LegacyVersion, request, env.send);
      built := Some(request);
    }

    method PlaylistOperation(env: Environment, ns: MemberName, operation: MemberName, payload: string,
                             userToken: Option<string>)
      returns (r: Result<ApiResponse, ClientError>, fetches: seq<bool>, sent: seq<Request>, ghost built: Option<Request>)
      modifies cache
      ensures Served(old(cache.token), cache.token, cache.clientId, cache.clientSecret, env, None, LegacyVersion,
        Headless, PlaylistShape(ns, operation, payload), r, fetches, sent, built)
    {
      var token := ApplicationToken(env);
      if token.Failure? {
        return Failure(token.error), [], [], None;
      }
      var p := BuildParameters(token.value, None, None, None, None);
      var request := Request(Post, Hostname, PlaylistPath(ns, operation), p, None, Json(payload));
      r, fetches, sent := Dispatch(Headless, None, LegacyVersion, request, env.send);
      built := Some(request);
    }

    // -------------------------------------------------------------------
    // Location
    // -------------------------------------------------------------------

    method Location(env: Environment, id: string, clientInstanceId: Option<string>, locationType: string,
                    country: Option<string>, userToken: Option<string>)
      returns (r: Result<ApiResponse, ClientError>, fetches: seq<bool>, sent: seq<Request>, ghost built: Option<Request>)
      modifies cache
      ensures Served(old(cache.token), cache.token, cache.clientId, cache.clientSecret, env, None, LegacyVersion,
        Headed(BearerOf(userToken)), LocationShape(id, clientInstanceId, locationType, country), r, fetches, sent, built)
    {
      var token := ApplicationToken(env);
      if token.Failure? {
        return Failure(token.error), [], [], None;
      }
      var p := LocationParameters(token.value, country, clientInstanceId);
      var request := Request(Get, Hostname, LocationPath(id, locationType), p, None, NoBody);
      r, fetches, sent := Dispatch(Headed(BearerOf(userToken)), None, LegacyVersion, request, env.send);
      built := Some(request);
    }

    /** Streaming forwards the user token; it passes no country. */
    method Stream(env: Environment, id: string, clientInstanceId: Option<string>, userToken: Option<string>)
      returns (r: Result<ApiResponse, ClientError>, fetches: seq<bool>, sent: seq<Request>, ghost built: Option<Request>)
      modifies cache
      ensures Served(old(cache.token), cache.token, cache.clientId, cache.clientSecret, env, None, LegacyVersion,
        Headed(BearerOf(userToken)), LocationShape(id, clientInstanceId, "stream", None), r, fetches, sent, built)
    {
      r, fetches, sent, built := Location(env, id, clientInstanceId, "stream", None, userToken);
    }

    /** Previews never carry a user token. */
    method Preview(env: Environment, id: string, clientInstanceId: Option<string>, country: Option<string>)
      returns (r: Result<ApiResponse, ClientError>, fetches: seq<bool>, sent: seq<Request>, ghost built: Option<Request>)
      modifies cache
      ensures Served(old(cache.token), cache.token, cache.clientId, cache.clientSecret, env, None, LegacyVersion,
        Headed(None), LocationShape(id, clientInstanceId, "preview", country), r, fetches, sent, built)
    {
      r, fetches, sent, built := Location(env, id, clientInstanceId, "preview", country, None);
    }
  }
}
