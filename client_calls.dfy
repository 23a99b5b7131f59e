/**
 * What both client variants share once a request is built: the
 * environment an operation runs in, the three ways a request reaches the
 * transport, and the description of one served operation (token cache
 * step, then request, then dispatch).
 */
module ClientCalls {
  import opened Wrappers
  import opened Text
  import opened Http
  import opened RequestBuilder
  import opened UserAuthorization
  import opened TokenCache

  /**
   * Everything outside the client an operation consults: the clock
   * readings of the token cache, the authentication transport, and the
   * catalog transport (called with the attempt number and the request).
   */
  datatype Environment = Environment(clock: Clock, authenticate: Request -> AuthOutcome, send: (nat, Request) -> Delivery)

  /**
   * How a request is sent: with the identity headers and the given
   * Authorization value, with no header dictionary at all, or through the
   * user-authorisation refresh wrapper.
   */
  datatype SendMode = Headed(authorization: Option<string>) | Headless | UserAuthorized

  /**
   * The token FormatRequestParametersAsync puts in the dictionary: a failed
   * renewal propagates, and a null cached token fails on `token.Token`.
   */
  function AppToken(renewal: Result<Option<AccessToken>, ClientError>): (t: Result<string, ClientError>)
    ensures t.Success? <==> renewal.Success? && renewal.value.Some?
    ensures t.Success? ==> t.value == renewal.value.value.token
    ensures renewal.Success? && renewal.value.None? ==> t == Failure(NoApplicationToken)
    ensures renewal.Failure? ==> t == Failure(renewal.error)
  {
    match renewal
    case Failure(e) => Failure(e)
    case Success(None) => Failure(NoApplicationToken)
    case Success(Some(token)) => Success(token.token)
  }

  /** The wrapper's apiCall: the built request with the given headers, handed to the transport. */
  function CallWith(send: (nat, Request) -> Delivery, proto: Request): (nat, Headers) -> Delivery {
    (i: nat, h: Headers) => send(i, proto.(headers := Some(h)))
  }

  /** The header dictionaries of requests that all carry one. */
  function SentHeaders(sent: seq<Request>): (hs: seq<Headers>)
    requires forall i :: 0 <= i < |sent| ==> sent[i].headers.Some?
    ensures |hs| == |sent| && forall i :: 0 <= i < |sent| ==> sent[i].headers == Some(hs[i])
  {
    seq(|sent|, i requires 0 <= i < |sent| => sent[i].headers.value)
  }

  /**
   * The requests `sent` to the transport for a built request `proto`, and
   * the result: every request is `proto` with some header dictionary, and
   * the mode fixes which dictionaries, how many calls and which result.
   */
  predicate Dispatched(mode: SendMode, manager: Option<UserTokenManager>, version: string, send: (nat, Request) -> Delivery,
                       proto: Request, r: Result<ApiResponse, ClientError>, fetches: seq<bool>, sent: seq<Request>)
  {
    && (forall i :: 0 <= i < |sent| ==> sent[i] == proto.(headers := sent[i].headers))
    && match mode
       case Headless =>
         sent == [proto.(headers := None)] && fetches == [] && r == Outcome(send(0, sent[0]))
       case Headed(authorization) =>
         && |sent| == 1 && fetches == []
         && sent[0].headers.Some? && IsRequestHeaders(sent[0].headers.value, version, authorization)
         && r == Outcome(send(0, sent[0]))
       case UserAuthorized =>
         && (forall i :: 0 <= i < |sent| ==> sent[i].headers.Some?)
         && RefreshProtocol(manager, version, CallWith(send, proto), r, fetches, SentHeaders(sent))
  }

  /** Hands a built request to the transport the way `mode` says. */
  method Dispatch(mode: SendMode, manager: Option<UserTokenManager>, version: string, proto: Request,
                  send: (nat, Request) -> Delivery)
    returns (r: Result<ApiResponse, ClientError>, fetches: seq<bool>, sent: seq<Request>)
    ensures Dispatched(mode, manager, version, send, proto, r, fetches, sent)
  {
    match mode {
      case Headless =>
        var request := proto.(headers := None);
        sent := [request];
        fetches := [];
        r := Outcome(send(0, request));
      case Headed(authorization) =>
        var requestHeaders := FormatRequestHeaders(version, authorization);
        var request := proto.(headers := Some(requestHeaders));
        sent := [request];
        fetches := [];
        r := Outcome(send(0, request));
      case UserAuthorized =>
        var hs;
        r, fetches, hs := ApiCallWithUserAuthorizationHeaderRefresh(manager, version, CallWith(send, proto));
        sent := seq(|hs|, i requires 0 <= i < |hs| => proto.(headers := Some(hs[i])));
        assert SentHeaders(sent) == hs;
    }
  }

  /**
   * What reaches the transport: at most two requests, two only through the
   * wrapper; each is the built request with the identity headers, carrying
   * an Authorization value exactly when the mode supplies one or the
   * wrapper fetched one.
   */
  lemma DispatchedShape(mode: SendMode, manager: Option<UserTokenManager>, version: string, send: (nat, Request) -> Delivery,
                        proto: Request, r: Result<ApiResponse, ClientError>, fetches: seq<bool>, sent: seq<Request>)
    requires Dispatched(mode, manager, version, send, proto, r, fetches, sent)
    ensures |sent| <= 2 && (|sent| == 2 ==> mode.UserAuthorized?)
    ensures mode.UserAuthorized? || |sent| == 1
    ensures forall i :: 0 <= i < |sent| ==>
      && sent[i].verb == proto.verb && sent[i].path == proto.path
      && sent[i].parameters == proto.parameters && sent[i].body == proto.body
    ensures forall i :: 0 <= i < |sent| ==> (sent[i].headers.None? <==> mode.Headless?)
    ensures forall i :: 0 <= i < |sent| && sent[i].headers.Some? ==>
      sent[i].headers.value.Keys >= {ClientNameHeader, ClientVersionHeader}
      && (AuthorizationHeader in sent[i].headers.value <==> mode.UserAuthorized? || (mode.Headed? && mode.authorization.Some?))
  {
    if mode.UserAuthorized? {
      RefreshBounds(manager, version, CallWith(send, proto), r, fetches, SentHeaders(sent));
    }
  }

  /**
   * One operation of a client: the token cache moves from `before` to
   * `after` as one CheckAndRenewTokenAsync step; when that yields no usable
   * token nothing is sent and the error is returned; otherwise the request
   * built is one `isRequest` accepts for the token, and it is dispatched.
   */
  predicate Served(before: Option<AccessToken>, after: Option<AccessToken>, clientId: string, clientSecret: string,
                   env: Environment, manager: Option<UserTokenManager>, version: string, mode: SendMode,
                   isRequest: (Request, string) -> bool,
                   r: Result<ApiResponse, ClientError>, fetches: seq<bool>, sent: seq<Request>, built: Option<Request>)
  {
    var renewal := RenewalResult(before, clientId, clientSecret, env.clock, env.authenticate);
    var app := AppToken(renewal);
    && after == TokenAfter(before, renewal)
    && (app.Failure? ==> r == Failure(app.error) && fetches == [] && sent == [] && built == None)
    && (app.Success? ==>
          built.Some? && isRequest(built.value, app.value)
          && Dispatched(mode, manager, version, env.send, built.value, r, fetches, sent))
  }

  /** A GET of `path` on the catalog host, with no body and no header dictionary yet. */
  predicate IsGet(q: Request, path: string) {
    q.verb == Get && q.host == Hostname && q.path == path && q.headers == None && q.body == NoBody
  }

  /** A POST of `path` on the catalog host with a JSON body. */
  predicate IsPost(q: Request, path: string, payload: string) {
    q.verb == Post && q.host == Hostname && q.path == path && q.headers == None && q.body == Json(payload)
  }

  // ---------------------------------------------------------------------
  // The request each operation builds, given the application token
  // ---------------------------------------------------------------------

  function SearchShape(ns: MemberName, query: Option<string>, source: Option<FlagsValue>, filter: FlagsValue,
                       language: Option<string>, country: Option<string>, maxItems: Option<int32>,
                       continuationToken: Option<string>): (Request, string) -> bool
  {
    (q: Request, t: string) => IsGet(q, SearchPath(ns))
      && IsSearchParameters(q.parameters, t, query, source, filter, language, country, maxItems, continuationToken)
  }

  function LookupShape(itemIds: seq<string>, source: Option<FlagsValue>, language: Option<string>, country: Option<string>,
                       extras: FlagsValue, continuationToken: Option<string>): (Request, string) -> bool
  {
    (q: Request, t: string) => IsGet(q, LookupPath(JoinIds(itemIds)))
      && IsLookupParameters(q.parameters, t, source, language, country, extras, continuationToken)
  }

  /** The browse of the current client, with its genre parameter. */
  function BrowseShape(ns: MemberName, source: FlagsValue, itemType: MemberName, genre: Option<string>,
                       orderBy: Option<MemberName>, maxItems: Option<int32>, page: Option<int32>, country: Option<string>,
                       language: Option<string>, continuationToken: Option<string>): (Request, string) -> bool
  {
    (q: Request, t: string) => IsGet(q, BrowsePath(ns, source, itemType))
      && IsBrowseParameters(q.parameters, t, genre, orderBy, maxItems, page, language, country, continuationToken)
  }

  /** The browse of the legacy client, which has no genre. */
  function PagedBrowseShape(ns: MemberName, source: FlagsValue, itemType: MemberName, orderBy: Option<MemberName>,
                            maxItems: Option<int32>, page: Option<int32>, country: Option<string>, language: Option<string>,
                            continuationToken: Option<string>): (Request, string) -> bool
  {
    (q: Request, t: string) => IsGet(q, BrowsePath(ns, source, itemType))
      && IsPagedParameters(q.parameters, t, orderBy, maxItems, page, language, country, continuationToken)
  }

  function SubBrowseShape(id: string, source: FlagsValue, browseType: MemberName, extra: FlagsValue,
                          orderBy: Option<MemberName>, maxItems: Option<int32>, page: Option<int32>, language: Option<string>,
                          country: Option<string>, continuationToken: Option<string>): (Request, string) -> bool
  {
    (q: Request, t: string) => IsGet(q, SubBrowsePath(id, source, browseType, extra))
      && IsPagedParameters(q.parameters, t, orderBy, maxItems, page, language, country, continuationToken)
  }

  function DiscoverShape(ns: MemberName, discoveryType: string, country: Option<string>, language: Option<string>,
                         genre: Option<string>): (Request, string) -> bool
  {
    (q: Request, t: string) => IsGet(q, DiscoverPath(ns, discoveryType))
      && IsDiscoverParameters(q.parameters, t, language, country, genre)
  }

  function GenresShape(ns: MemberName, country: Option<string>, language: Option<string>): (Request, string) -> bool {
    (q: Request, t: string) => IsGet(q, GenresPath(ns)) && IsBaseParameters(q.parameters, t, None, language, country, None)
  }

  function LocationShape(id: string, clientInstanceId: Option<string>, locationType: string,
                         country: Option<string>): (Request, string) -> bool
  {
    (q: Request, t: string) => IsGet(q, LocationPath(id, locationType))
      && IsLocationParameters(q.parameters, t, country, clientInstanceId)
  }

  function CollectionShape(ns: MemberName, operation: MemberName, payload: string): (Request, string) -> bool {
    (q: Request, t: string) => IsPost(q, CollectionPath(ns, operation), payload)
      && IsBaseParameters(q.parameters, t, None, None, None, None)
  }

  function PlaylistShape(ns: MemberName, operation: MemberName, payload: string): (Request, string) -> bool {
    (q: Request, t: string) => IsPost(q, PlaylistPath(ns, operation), payload)
      && IsBaseParameters(q.parameters, t, None, None, None, None)
  }

  function ProfileShape(ns: MemberName, language: Option<string>, country: Option<string>): (Request, string) -> bool {
    (q: Request, t: string) => IsGet(q, ProfilePath(ns)) && IsBaseParameters(q.parameters, t, None, language, country, None)
  }
}
