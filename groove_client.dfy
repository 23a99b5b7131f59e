/**
 * The current client (src/GrooveApiClient/GrooveClient.cs): every
 * operation renews the application token, builds its parameters and path,
 * and is routed to the transport anonymously, without headers, or through
 * the user-authorisation refresh wrapper.
 */
module GrooveClient {
  import opened Wrappers
  import opened Text
  import opened Http
  import opened RequestBuilder
  import opened UserAuthorization
  import opened TokenCache
  import opened ClientCalls

  /**
   * The four routing classes: catalog reads (search, lookup, browse,
   * sub-browse, location), discovery (spotlight, new releases), the genre
   * list, and the user's own data (collection, playlists, profile).
   */
  datatype OperationKind = CatalogRead | Discovery | GenreListing | UserData

  /** The routing rule of the operations. */
  function Route(kind: OperationKind, manager: Option<UserTokenManager>): SendMode {
    match kind
    case CatalogRead => if UserIsSignedIn(manager) then UserAuthorized else Headed(None)
    case Discovery => Headed(None)
    case GenreListing => Headless
    case UserData => UserAuthorized
  }

  /**
   * The wrapper is used exactly for user data, and for catalog reads while
   * a manager reports a signed-in user; everything else that sends headers
   * sends none of the user's; only the genre list sends no headers at all.
   */
  lemma RouteRule(kind: OperationKind, manager: Option<UserTokenManager>)
    ensures Route(kind, manager).UserAuthorized? <==>
      kind == UserData || (kind == CatalogRead && manager.Some? && manager.value.userIsSignedIn)
    ensures Route(kind, manager).Headless? <==> kind == GenreListing
    ensures Route(kind, manager).Headed? ==> Route(kind, manager).authorization == None
  {
  }

  class Client {
    const cache: AuthenticationCache
    const userTokenManager: Option<UserTokenManager>
    const clientVersion: string

    /** The client over a shared cache, with or without a user token manager, for assembly version major.minor. */
    constructor (cache: AuthenticationCache, userTokenManager: Option<UserTokenManager>, major: nat, minor: nat)
      ensures this.cache == cache && this.userTokenManager == userTokenManager
      ensures clientVersion == AssemblyClientVersion(major, minor)
    {
      this.cache := cache;
      this.userTokenManager := userTokenManager;
      clientVersion := AssemblyClientVersion(major, minor);
    }

    /** The first step of FormatRequestParametersAsync: the cached token, renewed if need be. */
    method ApplicationToken(env: Environment) returns (t: Result<string, ClientError>)
      modifies cache
      ensures cache.token == TokenAfter(old(cache.token),
        RenewalResult(old(cache.token), cache.clientId, cache.clientSecret, env.clock, env.authenticate))
      ensures t == AppToken(RenewalResult(old(cache.token), cache.clientId, cache.clientSecret, env.clock, env.authenticate))
    {
      var renewal, calls := cache.CheckAndRenewToken(env.clock, env.authenticate);
      t := AppToken(renewal);
    }

    /** The tail every operation shares: dispatch the built request the way `kind` routes it. */
    method Send(kind: OperationKind, request: Request, env: Environment)
      returns (r: Result<ApiResponse, ClientError>, fetches: seq<bool>, sent: seq<Request>)
      ensures Dispatched(Route(kind, userTokenManager), userTokenManager, clientVersion, env.send, request, r, fetches, sent)
    {
      r, fetches, sent := Dispatch(Route(kind, userTokenManager), userTokenManager, clientVersion, request, env.send);
    }

    // -------------------------------------------------------------------
    // Search
    // -------------------------------------------------------------------

    method SearchApi(env: Environment, ns: MemberName, query: Option<string>, source: Option<FlagsValue>,
                     filter: FlagsValue, language: Option<string>, country: Option<string>, maxItems: Option<int32>,
                     continuationToken: Option<string>)
      returns (r: Result<ApiResponse, ClientError>, fetches: seq<bool>, sent: seq<Request>, ghost built: Option<Request>)
      modifies cache
      ensures Served(old(cache.token), cache.token, cache.clientId, cache.clientSecret, env, userTokenManager, clientVersion,
        Route(CatalogRead, userTokenManager),
        SearchShape(ns, query, source, filter, language, country, maxItems, continuationToken), r, fetches, sent, built)
    {
      var token := ApplicationToken(env);
      if token.Failure? {
        return Failure(token.error), [], [], None;
      }
      var p := SearchParameters(token.value, query, source, filter, language, country, maxItems, continuationToken);
      var request := Request(Get, Hostname, SearchPath(ns), p, None, NoBody);
      r, fetches, sent := Send(CatalogRead, request, env);
      built := Some(request);
    }

    method Search(env: Environment, ns: MemberName, query: Option<string>, source: Option<FlagsValue>,
                  filter: FlagsValue, language: Option<string>, country: Option<string>, maxItems: Option<int32>)
      returns (r: Result<ApiResponse, ClientError>, fetches: seq<bool>, sent: seq<Request>, ghost built: Option<Request>)
      modifies cache
      ensures Served(old(cache.token), cache.token, cache.clientId, cache.clientSecret, env, userTokenManager, clientVersion,
        Route(CatalogRead, userTokenManager),
        SearchShape(ns, query, source, filter, language, country, maxItems, None), r, fetches, sent, built)
    {
      r, fetches, sent, built := SearchApi(env, ns, query, source, filter, language, country, maxItems, None);
    }

    method SearchContinuation(env: Environment, ns: MemberName, continuationToken: Option<string>)
      returns (r: Result<ApiResponse, ClientError>, fetches: seq<bool>, sent: seq<Request>, ghost built: Option<Request>)
      modifies cache
      ensures Served(old(cache.token), cache.token, cache.clientId, cache.clientSecret, env, userTokenManager, clientVersion,
        Route(CatalogRead, userTokenManager),
        SearchShape(ns, None, None, DefaultFilter, None, None, None, continuationToken), r, fetches, sent, built)
    {
      r, fetches, sent, built := SearchApi(env, ns, None, None, DefaultFilter, None, None, None, continuationToken);
    }

    // -------------------------------------------------------------------
    // Lookup
    // -------------------------------------------------------------------

    method LookupApi(env: Environment, itemIds: seq<string>, source: Option<FlagsValue>, language: Option<string>,
                     country: Option<string>, extras: FlagsValue, continuationToken: Option<string>)
      returns (r: Result<ApiResponse, ClientError>, fetches: seq<bool>, sent: seq<Request>, ghost built: Option<Request>)
      modifies cache
      ensures Served(old(cache.token), cache.token, cache.clientId, cache.clientSecret, env, userTokenManager, clientVersion,
        Route(CatalogRead, userTokenManager),
        LookupShape(itemIds, source, language, country, extras, continuationToken), r, fetches, sent, built)
    {
      var token := ApplicationToken(env);
      if token.Failure? {
        return Failure(token.error), [], [], None;
      }
      var p := LookupParameters(token.value, source, language, country, extras, continuationToken);
      var ids := JoinIds(itemIds);
      var request := Request(Get, Hostname, LookupPath(ids), p, None, NoBody);
      r, fetches, sent := Send(CatalogRead, request, env);
      built := Some(request);
    }

    method Lookup(env: Environment, itemIds: seq<string>, source: Option<FlagsValue>, language: Option<string>,
                  country: Option<string>, extras: FlagsValue)
      returns (r: Result<ApiResponse, ClientError>, fetches: seq<bool>, sent: seq<Request>, ghost built: Option<Request>)
      modifies cache
      ensures Served(old(cache.token), cache.token, cache.clientId, cache.clientSecret, env, userTokenManager, clientVersion,
        Route(CatalogRead, userTokenManager),
        LookupShape(itemIds, source, language, country, extras, None), r, fetches, sent, built)
    {
      r, fetches, sent, built := LookupApi(env, itemIds, source, language, country, extras, None);
    }

    /** The single-id overload: a one-element list. */
    method LookupOne(env: Environment, itemId: string, source: Option<FlagsValue>, language: Option<string>,
                     country: Option<string>, extras: FlagsValue)
      returns (r: Result<ApiResponse, ClientError>, fetches: seq<bool>, sent: seq<Request>, ghost built: Option<Request>)
      modifies cache
      ensures Served(old(cache.token), cache.token, cache.clientId, cache.clientSecret, env, userTokenManager, clientVersion,
        Route(CatalogRead, userTokenManager),
        LookupShape([itemId], source, language, country, extras, None), r, fetches, sent, built)
    {
      r, fetches, sent, built := LookupApi(env, [itemId], source, language, country, extras, None);
    }

    method LookupContinuation(env: Environment, itemIds: seq<string>, continuationToken: Option<string>)
      returns (r: Result<ApiResponse, ClientError>, fetches: seq<bool>, sent: seq<Request>, ghost built: Option<Request>)
      modifies cache
      ensures Served(old(cache.token), cache.token, cache.clientId, cache.clientSecret, env, userTokenManager, clientVersion,
        Route(CatalogRead, userTokenManager),
        LookupShape(itemIds, None, None, None, NoExtras, continuationToken), r, fetches, sent, built)
    {
      r, fetches, sent, built := LookupApi(env, itemIds, None, None, None, NoExtras, continuationToken);
    }

    method LookupOneContinuation(env: Environment, itemId: string, continuationToken: Option<string>)
      returns (r: Result<ApiResponse, ClientError>, fetches: seq<bool>, sent: seq<Request>, ghost built: Option<Request>)
      modifies cache
      ensures Served(old(cache.token), cache.token, cache.clientId, cache.clientSecret, env, userTokenManager, clientVersion,
        Route(CatalogRead, userTokenManager),
        LookupShape([itemId], None, None, None, NoExtras, continuationToken), r, fetches, sent, built)
    {
      r, fetches, sent, built := LookupApi(env, [itemId], None, None, None, NoExtras, continuationToken);
    }

    // -------------------------------------------------------------------
    // Browse
    // -------------------------------------------------------------------

    method BrowseApi(env: Environment, ns: MemberName, source: FlagsValue, itemType: MemberName, genre: Option<string>,
                     orderBy: Option<MemberName>, maxItems: Option<int32>, page: Option<int32>, country: Option<string>,
                     language: Option<string>, continuationToken: Option<string>)
      returns (r: Result<ApiResponse, ClientError>, fetches: seq<bool>, sent: seq<Request>, ghost built: Option<Request>)
      modifies cache
      ensures Served(old(cache.token), cache.token, cache.clientId, cache.clientSecret, env, userTokenManager, clientVersion,
        Route(CatalogRead, userTokenManager),
        BrowseShape(ns, source, itemType, genre, orderBy, maxItems, page, country, language, continuationToken),
        r, fetches, sent, built)
    {
      var token := ApplicationToken(env);
      if token.Failure? {
        return Failure(token.error), [], [], None;
      }
      var p := BrowseParameters(token.value, genre, orderBy, maxItems, page, language, country, continuationToken);
      var request := Request(Get, Hostname, BrowsePath(ns, source, itemType), p, None, NoBody);
      r, fetches, sent := Send(CatalogRead, request, env);
      built := Some(request);
    }

    method Browse(env: Environment, ns: MemberName, source: FlagsValue, itemType: MemberName, genre: Option<string>,
                  orderBy: Option<MemberName>, maxItems: Option<int32>, page: Option<int32>, country: Option<string>,
                  language: Option<string>)
      returns (r: Result<ApiResponse, ClientError>, fetches: seq<bool>, sent: seq<Request>, ghost built: Option<Request>)
      modifies cache
      ensures Served(old(cache.token), cache.token, cache.clientId, cache.clientSecret, env, userTokenManager, clientVersion,
        Route(CatalogRead, userTokenManager),
        BrowseShape(ns, source, itemType, genre, orderBy, maxItems, page, country, language, None),
        r, fetches, sent, built)
    {
      r, fetches, sent, built := BrowseApi(env, ns, source, itemType, genre, orderBy, maxItems, page, country, language, None);
    }

    method BrowseContinuation(env: Environment, ns: MemberName, source: FlagsValue, itemType: MemberName,
                              continuationToken: Option<string>)
      returns (r: Result<ApiResponse, ClientError>, fetches: seq<bool>, sent: seq<Request>, ghost built: Option<Request>)
      modifies cache
      ensures Served(old(cache.token), cache.token, cache.clientId, cache.clientSecret, env, userTokenManager, clientVersion,
        Route(CatalogRead, userTokenManager),
        BrowseShape(ns, source, itemType, None, None, None, None, None, None, continuationToken),
        r, fetches, sent, built)
    {
      r, fetches, sent, built := BrowseApi(env, ns, source, itemType, None, None, None, None, None, None, continuationToken);
    }

    method SubBrowseApi(env: Environment, id: string, source: FlagsValue, browseType: MemberName, extra: FlagsValue,
                        orderBy: Option<MemberName>, maxItems: Option<int32>, page: Option<int32>, language: Option<string>,
                        country: Option<string>, continuationToken: Option<string>)
      returns (r: Result<ApiResponse, ClientError>, fetches: seq<bool>, sent: seq<Request>, ghost built: Option<Request>)
      modifies cache
      ensures Served(old(cache.token), cache.token, cache.clientId, cache.clientSecret, env, userTokenManager, clientVersion,
        Route(CatalogRead, userTokenManager),
        SubBrowseShape(id, source, browseType, extra, orderBy, maxItems, page, language, country, continuationToken),
        r, fetches, sent, built)
    {
      var token := ApplicationToken(env);
      if token.Failure? {
        return Failure(token.error), [], [], None;
      }
      var p := PagedParameters(token.value, orderBy, maxItems, page, language, country, continuationToken);
      var request := Request(Get, Hostname, SubBrowsePath(id, source, browseType, extra), p, None, NoBody);
      r, fetches, sent := Send(CatalogRead, request, env);
      built := Some(request);
    }

    method SubBrowse(env: Environment, id: string, source: FlagsValue, browseType: MemberName, extra: FlagsValue,
                     orderBy: Option<MemberName>, maxItems: Option<int32>, page: Option<int32>, language: Option<string>,
                     country: Option<string>)
      returns (r: Result<ApiResponse, ClientError>, fetches: seq<bool>, sent: seq<Request>, ghost built: Option<Request>)
      modifies cache
      ensures Served(old(cache.token), cache.token, cache.clientId, cache.clientSecret, env, userTokenManager, clientVersion,
        Route(CatalogRead, userTokenManager),
        SubBrowseShape(id, source, browseType, extra, orderBy, maxItems, page, language, country, None),
        r, fetches, sent, built)
    {
      r, fetches, sent, built := SubBrowseApi(env, id, source, browseType, extra, orderBy, maxItems, page, language, country, None);
    }

    method SubBrowseContinuation(env: Environment, id: string, source: FlagsValue, browseType: MemberName,
                                 extra: FlagsValue, continuationToken: Option<string>)
      returns (r: Result<ApiResponse, ClientError>, fetches: seq<bool>, sent: seq<Request>, ghost built: Option<Request>)
      modifies cache
      ensures Served(old(cache.token), cache.token, cache.clientId, cache.clientSecret, env, userTokenManager, clientVersion,
        Route(CatalogRead, userTokenManager),
        SubBrowseShape(id, source, browseType, extra, None, None, None, None, None, continuationToken),
        r, fetches, sent, built)
    {
      r, fetches, sent, built := SubBrowseApi(env, id, source, browseType, extra, None, None, None, None, None, continuationToken);
    }

    // -------------------------------------------------------------------
    // Discovery
    // -------------------------------------------------------------------

    method Discover(env: Environment, ns: MemberName, discoveryType: string, country: Option<string>,
                    language: Option<string>, genre: Option<string>)
      returns (r: Result<ApiResponse, ClientError>, fetches: seq<bool>, sent: seq<Request>, ghost built: Option<Request>)
      modifies cache
      ensures Served(old(cache.token), cache.token, cache.clientId, cache.clientSecret, env, userTokenManager, clientVersion,
        Route(Discovery, userTokenManager),
        DiscoverShape(ns, discoveryType, country, language, genre), r, fetches, sent, built)
    {
      var token := ApplicationToken(env);
      if token.Failure? {
        return Failure(token.error), [], [], None;
      }
      var p := DiscoverParameters(token.value, language, country, genre);
      var request := Request(Get, Hostname, DiscoverPath(ns, discoveryType), p, None, NoBody);
      r, fetches, sent := Send(Discovery, request, env);
      built := Some(request);
    }

    method Spotlight(env: Environment, ns: MemberName, language: Option<string>, country: Option<string>)
      returns (r: Result<ApiResponse, ClientError>, fetches: seq<bool>, sent: seq<Request>, ghost built: Option<Request>)
      modifies cache
      ensures Served(old(cache.token), cache.token, cache.clientId, cache.clientSecret, env, userTokenManager, clientVersion,
        Route(Discovery, userTokenManager),
        DiscoverShape(ns, "spotlight", country, language, None), r, fetches, sent, built)
    {
      r, fetches, sent, built := Discover(env, ns, "spotlight", country, language, None);
    }

    method NewReleases(env: Environment, ns: MemberName, genre: Option<string>, language: Option<string>,
                       country: Option<string>)
      returns (r: Result<ApiResponse, ClientError>, fetches: seq<bool>, sent: seq<Request>, ghost built: Option<Request>)
      modifies cache
      ensures Served(old(cache.token), cache.token, cache.clientId, cache.clientSecret, env, userTokenManager, clientVersion,
        Route(Discovery, userTokenManager),
        DiscoverShape(ns, "newreleases", country, language, genre), r, fetches, sent, built)
    {
      r, fetches, sent, built := Discover(env, ns, "newreleases", country, language, genre);
    }

    method BrowseGenres(env: Environment, ns: MemberName, country: Option<string>, language: Option<string>)
      returns (r: Result<ApiResponse, ClientError>, fetches: seq<bool>, sent: seq<Request>, ghost built: Option<Request>)
      modifies cache
      ensures Served(old(cache.token), cache.token, cache.clientId, cache.clientSecret, env, userTokenManager, clientVersion,
        Route(GenreListing, userTokenManager),
        GenresShape(ns, country, language), r, fetches, sent, built)
    {
      var token := ApplicationToken(env);
      if token.Failure? {
        return Failure(token.error), [], [], None;
      }
      var p := BuildParameters(token.value, None, language, country, None);
      var request := Request(Get, Hostname, GenresPath(ns), p, None, NoBody);
      r, fetches, sent := Send(GenreListing, request, env);
      built := Some(request);
    }

    // -------------------------------------------------------------------
    // Location
    // -------------------------------------------------------------------

    method Location(env: Environment, id: string, clientInstanceId: Option<string>, locationType: string,
                    country: Option<string>)
      returns (r: Result<ApiResponse, ClientError>, fetches: seq<bool>, sent: seq<Request>, ghost built: Option<Request>)
      modifies cache
      ensures Served(old(cache.token), cache.token, cache.clientId, cache.clientSecret, env, userTokenManager, clientVersion,
        Route(CatalogRead, userTokenManager),
        LocationShape(id, clientInstanceId, locationType, country), r, fetches, sent, built)
    {
      var token := ApplicationToken(env);
      if token.Failure? {
        return Failure(token.error), [], [], None;
      }
      var p := LocationParameters(token.value, country, clientInstanceId);
      var request := Request(Get, Hostname, LocationPath(id, locationType), p, None, NoBody);
      r, fetches, sent := Send(CatalogRead, request, env);
      built := Some(request);
    }

    method Stream(env: Environment, id: string, clientInstanceId: Option<string>)
      returns (r: Result<ApiResponse, ClientError>, fetches: seq<bool>, sent: seq<Request>, ghost built: Option<Request>)
      modifies cache
      ensures Served(old(cache.token), cache.token, cache.clientId, cache.clientSecret, env, userTokenManager, clientVersion,
        Route(CatalogRead, userTokenManager),
        LocationShape(id, clientInstanceId, "stream", None), r, fetches, sent, built)
    {
      r, fetches, sent, built := Location(env, id, clientInstanceId, "stream", None);
    }

    method Preview(env: Environment, id: string, clientInstanceId: Option<string>, country: Option<string>)
      returns (r: Result<ApiResponse, ClientError>, fetches: seq<bool>, sent: seq<Request>, ghost built: Option<Request>)
      modifies cache
      ensures Served(old(cache.token), cache.token, cache.clientId, cache.clientSecret, env, userTokenManager, clientVersion,
        Route(CatalogRead, userTokenManager),
        LocationShape(id, clientInstanceId, "preview", country), r, fetches, sent, built)
    {
      r, fetches, sent, built := Location(env, id, clientInstanceId, "preview", country);
    }

    // -------------------------------------------------------------------
    // Collection, playlists, profile
    // -------------------------------------------------------------------

    /** `payload` is the serialised TrackActionRequest. */
    method CollectionOperation(env: Environment, ns: MemberName, operation: MemberName, payload: string)
      returns (r: Result<ApiResponse, ClientError>, fetches: seq<bool>, sent: seq<Request>, ghost built: Option<Request>)
      modifies cache
      ensures Served(old(cache.token), cache.token, cache.clientId, cache.clientSecret, env, userTokenManager, clientVersion,
        Route(UserData, userTokenManager),
        CollectionShape(ns, operation, payload), r, fetches, sent, built)
    {
      var token := ApplicationToken(env);
      if token.Failure? {
        return Failure(token.error), [], [], None;
      }
      var p := BuildParameters(token.value, None, None, None, None);
      var request := Request(Post, Hostname, CollectionPath(ns, operation), p, None, Json(payload));
      r, fetches, sent := Send(UserData, request, env);
      built := Some(request);
    }

    /** `payload` is the serialised PlaylistAction. */
    method PlaylistOperation(env: Environment, ns: MemberName, operation: MemberName, payload: string)
      returns (r: Result<ApiResponse, ClientError>, fetches: seq<bool>, sent: seq<Request>, ghost built: Option<Request>)
      modifies cache
      ensures Served(old(cache.token), cache.token, cache.clientId, cache.clientSecret, env, userTokenManager, clientVersion,
        Route(UserData, userTokenManager),
        PlaylistShape(ns, operation, payload), r, fetches, sent, built)
    {
      var token := ApplicationToken(env);
      if token.Failure? {
        return Failure(token.error), [], [], None;
      }
      var p := BuildParameters(token.value, None, None, None, None);
      var request := Request(Post, Hostname, PlaylistPath(ns, operation), p, None, Json(payload));
      r, fetches, sent := Send(UserData, request, env);
      built := Some(request);
    }

    method GetUserProfile(env: Environment, ns: MemberName, language: Option<string>, country: Option<string>)
      returns (r: Result<ApiResponse, ClientError>, fetches: seq<bool>, sent: seq<Request>, ghost built: Option<Request>)
      modifies cache
      ensures Served(old(cache.token), cache.token, cache.clientId, cache.clientSecret, env, userTokenManager, clientVersion,
        Route(UserData, userTokenManager),
        ProfileShape(ns, language, country), r, fetches, sent, built)
    {
      var token := ApplicationToken(env);
      if token.Failure? {
        return Failure(token.error), [], [], None;
      }
      var p := BuildParameters(token.value, None, language, country, None);
      var request := Request(Get, Hostname, ProfilePath(ns), p, None, NoBody);
      r, fetches, sent := Send(UserData, request, env);
      built := Some(request);
    }
  }
}
