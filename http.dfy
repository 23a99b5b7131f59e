/**
 * The shapes that cross the transport boundary. The transport itself
 * (SimpleServiceClient, HttpClient, JSON) is not modelled: operations are
 * given it as an oracle from requests to deliveries.
 */
module Http {
  import opened Wrappers

  /**
   * The query-string keys the client ever sends. Two of them differ only in
   * case on the wire: search sends "maxItems", browsing sends "maxitems".
   */
  datatype ParameterKey =
    | AccessTokenKey | ContinuationTokenKey | LanguageKey | CountryKey | SourceKey
    | QueryKey | FiltersKey | SearchMaxItemsKey | ExtrasKey
    | OrderByKey | MaxItemsKey | PageKey | GenreKey | ClientInstanceIdKey

  function ParameterName(k: ParameterKey): string {
    match k
    case AccessTokenKey => "accessToken"
    case ContinuationTokenKey => "continuationToken"
    case LanguageKey => "language"
    case CountryKey => "country"
    case SourceKey => "source"
    case QueryKey => "q"
    case FiltersKey => "filters"
    case SearchMaxItemsKey => "maxItems"
    case ExtrasKey => "extras"
    case OrderByKey => "orderby"
    case MaxItemsKey => "maxitems"
    case PageKey => "page"
    case GenreKey => "genre"
    case ClientInstanceIdKey => "clientInstanceId"
  }

  /** The header keys the client ever sends. */
  datatype HeaderKey = ClientNameHeader | ClientVersionHeader | AuthorizationHeader

  function HeaderName(k: HeaderKey): string {
    match k
    case ClientNameHeader => "X-Client-Name"
    case ClientVersionHeader => "X-Client-Version"
    case AuthorizationHeader => "Authorization"
  }

  /** Distinct keys are distinct on the wire, so a map over keys is a map over wire names. */
  lemma WireNamesInjective(a: ParameterKey, b: ParameterKey, c: HeaderKey, d: HeaderKey)
    ensures ParameterName(a) == ParameterName(b) ==> a == b
    ensures HeaderName(c) == HeaderName(d) ==> c == d
  {
    if ParameterName(a) == ParameterName(b) {
      var n := ParameterName(a);
      assert |n| == |ParameterName(b)| && n[0] == ParameterName(b)[0];
      if |n| == 7 { assert n[1] == ParameterName(b)[1]; }
      if |n| == 8 { assert n[3] == ParameterName(b)[3]; }
    }
    if HeaderName(c) == HeaderName(d) {
      assert |HeaderName(c)| == |HeaderName(d)|;
      assert HeaderName(c)[9] == HeaderName(d)[9] || |HeaderName(c)| < 10;
    }
  }

  type Headers = map<HeaderKey, string>
  type Parameters = map<ParameterKey, string>

  datatype Verb = Get | Post

  datatype Body =
    | NoBody
      /** A request object serialised as JSON (collection and playlist edits); kept opaque. */
    | Json(payload: string)
      /** A form-urlencoded dictionary (the application authentication call). */
    | FormUrlEncoded(fields: map<string, string>)

  /** One HTTP call: `headers` is None when the caller passes no header dictionary at all. */
  datatype Request = Request(
    verb: Verb,
    host: string,
    path: string,
    parameters: Parameters,
    headers: Option<Headers>,
    body: Body)

  /** The `Error` object of a response envelope. */
  datatype ErrorInfo = ErrorInfo(errorCode: Option<string>, message: Option<string>, description: Option<string>)

  /** A deserialised response envelope: its Error, and the rest of the result graph kept opaque. */
  datatype ApiResponse = ApiResponse(error: Option<ErrorInfo>, content: string)

  /** What the transport gives back for one call: a response, or an exception it raised. */
  datatype Delivery = Delivered(response: ApiResponse) | TransportFailed

  /** The exceptions the client raises or lets through. */
  datatype ClientError =
      /** The application authentication call raised (network failure, cancellation). */
    | AuthenticationFailed
      /** The token cache returned null, so `token.Token` dereferences null. */
    | NoApplicationToken
      /** A user-authorised call was made on a client built without a user token manager. */
    | NoUserTokenManager
      /** The user token manager gave a null or empty authorization header. */
    | MissingUserAuthorizationHeader
      /** The catalog transport raised. */
    | TransportFailure

  /** The result of one transport call as the operation returns it. */
  function Outcome(d: Delivery): Result<ApiResponse, ClientError> {
    match d
    case Delivered(resp) => Success(resp)
    case TransportFailed => Failure(TransportFailure)
  }
}
