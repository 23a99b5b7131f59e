# Groove API client, modelled in Dafny

This project models the request-shaping core of the Groove API C# SDK.
The SDK is a client of the Groove music service. It is a read-and-edit API over a
music catalog and a user's collection.

Every operation works the same way:

- it fetches the application token from a cache, which renews it from the Azure Data
  Market OAuth service when it has expired;
- it builds a parameter dictionary, which always holds the escaped `Bearer` token;
- it builds a path from a template;
- it sends the request in one of three ways: without a header dictionary, with identity
  headers only, or through a wrapper that adds the user's `Authorization` header and
  retries once with a forced refresh when the service rejects it.

Two client variants are modelled. The current `src/GrooveApiClient/GrooveClient.cs` uses
the refresh wrapper. The legacy `GrooveApiClient/GrooveClient.cs` instead takes an
optional user token per call and prefixes it with `Bearer ` itself.

Three helpers from the samples and the tests round out the core:

- the machine client-instance id encoder of the sample application;
- the test helpers that flatten a content response;
- the sample's content pane, which refills four observable collections in place.

Modules, one per file:

- `Wrappers`: Option and Result.
- `Text`: string operations. Three are .NET operations the client calls:
  - `String.Replace`;
  - decimal `Int32.ToString()`;
  - `Enum.ToString()` of plain and `[Flags]` enums.

  Two are the model's own:
  - `Join` describes the output of `Enum.ToString()` on a combined `[Flags]` value and of
    the lookup-id `Aggregate` fold. The client never calls `string.Join` itself.
  - `SplitOn` is a decoder, used only to prove that the joined lookup ids can be read back.
    The client never splits strings.
- `UriEscape`: `Uri.EscapeDataString`, modelled after sections 2.1 and 2.3 of RFC 3986.
  It UTF-8 encodes each character as in section 3 of RFC 3629 and percent-escapes
  everything but the unreserved characters. The module also defines a decoder that
  recovers the input from the escaped string.
- `Http`:
  - the parameter and header keys with their wire names;
  - requests and response envelopes;
  - the errors a call can end in.
- `AuthenticationClient`: the client-credentials request of `AuthenticateAsync`.
- `TokenCache`: `AzureDataMarketAuthenticationCache`, a class with one mutable token field.
- `RequestBuilder`:
  - the parameter dictionaries of every operation, built by methods that add entries in
    place;
  - the header dictionary;
  - the path templates;
  - the `Aggregate` fold that joins lookup ids.
- `UserAuthorization`: `ApiCallWithUserAuthorizationHeaderRefreshAsync`, with the user
  token manager as an oracle.
- `ClientCalls`: what the two clients share:
  - the transport environment;
  - the three send modes;
  - `Dispatch`, which hands a built request to the transport;
  - `Served`, the relation that ties one operation's cache step, its built request, and
    what it sends and returns.
- `GrooveClient`: the current client class, its routing rule and all its operations.
- `LegacyClient`: the legacy client class and its operations.
- `ClientInstanceId`: `GetStableClientInstanceId` of the sample application.
- `ContentLists`: `GetAllContentLists` and `GetAllTopLevelContent` of the test helpers.
- `MusicContentPane`: `MusicContentPaneViewModel` and the part of `ObservableCollection`
  it uses.

The transport is a function from (attempt number, request) to a delivery, which is a
response or a raised exception. The same holds for the authentication service
(request to outcome) and the user token manager (`forceRefresh` flag to a nullable
header). Each operation method returns what the client observes:

- its result;
- the `forceRefresh` flags it asked the token manager for;
- the requests it sent.

Each operation's `ensures` pins all three down through `Served` and the request shape of
that operation.

## Model

| member | source | states |
|---|---|---|
| Text.FlagsParameterIsPlusJoin | src/GrooveApiClient/GrooveClient.cs:541-545 | `value.ToString().Replace(", ", "+")` of a flags value is its member names joined with `+`, and no comma or space is left in it |
| Text.ReplaceJoin | src/GrooveApiClient/GrooveClient.cs:543 | replacing the separator of a join whose parts avoid the separator's first character gives the join with the replacement |
| Text.ReplaceSkipsPrefix | src/GrooveApiClient/GrooveClient.cs:543 | `String.Replace` copies unchanged a prefix that cannot start an occurrence |
| Text.ReplaceAtFront | src/GrooveApiClient/GrooveClient.cs:543 | an occurrence at the front is replaced and scanning resumes after it |
| Text.JoinAvoids | src/GrooveApiClient/GrooveClient.cs:543 | a character absent from every part and from the separator is absent from the join |
| Text.NatToDecimalRoundTrip | src/GrooveApiClient/GrooveClient.cs:68 | `maxItems.ToString()` of a non-negative value is all decimal digits and reads back as the same number |
| Text.SplitOnJoin | src/GrooveApiClient/GrooveClient.cs:130-132 | the model's decoder, splitting on a character, undoes joining with it when no part contains it |
| Text.SplitOnPiece | src/GrooveApiClient/GrooveClient.cs:130-132 | a separator-free piece followed by the separator comes off whole |
| UriEscape.HexDigit | src/GrooveApiClient/GrooveClient.cs:529 | the upper-case hex digits used in escapes are themselves unreserved |
| UriEscape.Utf8 | src/GrooveApiClient/GrooveClient.cs:529 | a character encodes to 1, 2, 3 or 4 octets according to its code point range |
| UriEscape.EscapeAppend | src/GrooveApiClient/GrooveClient.cs:529 | escaping distributes over concatenation |
| UriEscape.EscapeUnreservedIsIdentity | src/GrooveApiClient/GrooveClient.cs:529 | a string of unreserved characters escapes to itself |
| UriEscape.EscapeDataString | src/GrooveApiClient/GrooveClient.cs:529 | `Uri.EscapeDataString` gives a string of unreserved characters and `%` only, never shorter than its input |
| UriEscape.BearerPrefixEscapes | src/GrooveApiClient/GrooveClient.cs:529 | `"Bearer " + token` escapes to `"Bearer%20"` followed by the escaped token |
| UriEscape.SpaceEscapes | src/GrooveApiClient/GrooveClient.cs:529 | a space escapes to `%20` |
| UriEscape.DecodeEscapedChar | src/GrooveApiClient/GrooveClient.cs:529 | the escape sequence of one character decodes to that character and has three characters per octet |
| UriEscape.UnescapeEscape | src/GrooveApiClient/GrooveClient.cs:529 | escaping loses nothing: percent-decoding the escaped string gives the original back |
| Http.WireNamesInjective | src/GrooveApiClient/GrooveClient.cs:527-545 | distinct parameter keys and distinct header keys have distinct wire names |
| AuthenticationClient.RequestFields | src/GrooveApiClient/AzureDataMarketAuthenticationClient.cs:34-40 | the form has exactly the keys client_id, client_secret, scope and grant_type; the credentials are verbatim, and scope and grant type are the fixed constants |
| AuthenticationClient.AuthenticateRequest | src/GrooveApiClient/AzureDataMarketAuthenticationClient.cs:23-48 | the request is a POST to `/v2/OAuth2-13` on the Data Market host, with a form-urlencoded body of those fields, no query parameters and no headers |
| AuthenticationClient.AuthenticateRequestIsClientCredentialsGrant | src/GrooveApiClient/AzureDataMarketAuthenticationClient.cs:32-48 | the request is a client-credentials grant for a pair of credentials exactly when they are the pair it was built from |
| AuthenticationClient.AuthenticateRequestInjective | src/GrooveApiClient/AzureDataMarketAuthenticationClient.cs:34-40 | the request determines the credentials it carries |
| TokenCache.AuthenticationCache.constructor | src/GrooveApiClient/AzureDataMarketAuthenticationCache.cs:37-41 | the cache keeps the given credentials and starts without a token |
| TokenCache.AuthenticationCache.CheckAndRenewToken | src/GrooveApiClient/AzureDataMarketAuthenticationCache.cs:48-67 | a token that is present and not strictly expired is returned with no service call. Otherwise exactly one call is made, with the cache's own credentials. A response replaces the field with the token expiring at the renewal clock plus the lifetime. A null response leaves the field as it was. An exception keeps the field and is raised. The value returned is the field afterwards |
| TokenCache.RenewalKeepsToken | src/GrooveApiClient/AzureDataMarketAuthenticationCache.cs:50-66 | once a token is cached the field never becomes empty again |
| TokenCache.RenewalReusesValidToken | src/GrooveApiClient/AzureDataMarketAuthenticationCache.cs:50-66 | a token whose expiration is not before now is returned whatever the service would say |
| TokenCache.RenewalIsFresh | src/GrooveApiClient/AzureDataMarketAuthenticationCache.cs:55-63 | after a renewal with a non-negative lifetime the returned token is the service's and does not expire before the check time |
| RequestBuilder.AssemblyClientVersion | src/GrooveApiClient/GrooveClient.cs:24-30 | the client version `Major.Minor` has at least three characters and contains a dot |
| RequestBuilder.AssemblyClientVersionReadsBack | src/GrooveApiClient/GrooveClient.cs:29 | split at the dot, the version is the decimal of Major and then the decimal of Minor, and each piece reads back as that number |
| RequestBuilder.AccessTokenValueDecodes | src/GrooveApiClient/GrooveClient.cs:529 | the accessToken value is `Bearer%20` and the escaped token; it decodes back to `"Bearer " + token`, and it is made of unreserved characters and `%` only |
| RequestBuilder.NonEmpty | src/GrooveApiClient/GrooveClient.cs:532-539 | a string argument contributes a value exactly when it is neither null nor empty, and then verbatim |
| RequestBuilder.BuildParameters | src/GrooveApiClient/GrooveClient.cs:519-548 | the dictionary holds accessToken; continuationToken, language and country exactly when non-null and non-empty; source exactly when given, `+`-joined; and no other key |
| RequestBuilder.OnlyAccessToken | src/GrooveApiClient/GrooveClient.cs:527-547 | with every optional argument absent the dictionary is exactly `{accessToken}` |
| RequestBuilder.BaseParametersDetermined | src/GrooveApiClient/GrooveClient.cs:519-548 | the arguments determine the dictionary |
| RequestBuilder.SearchParameters | src/GrooveApiClient/GrooveClient.cs:57-68 | the base entries, plus `q` (escaped) exactly for a non-empty query, `filters` exactly when not `Default`, and `maxItems` exactly when given, and nothing else |
| RequestBuilder.LookupParameters | src/GrooveApiClient/GrooveClient.cs:122-128 | the base entries, plus `extras` `+`-joined exactly when not `None`, and nothing else |
| RequestBuilder.PagedParameters | src/GrooveApiClient/GrooveClient.cs:274-285 | the base entries, plus `orderby`, `maxitems` and `page` exactly when given, and nothing else |
| RequestBuilder.BrowseParameters | src/GrooveApiClient/GrooveClient.cs:202-216 | the paged entries, plus `genre` whenever it is non-null, even empty |
| RequestBuilder.BrowseWithoutGenreIsPaged | src/GrooveApiClient/GrooveClient.cs:202-216 | a browse without a genre has exactly the dictionary of a genre-less paged browse |
| RequestBuilder.DiscoverParameters | src/GrooveApiClient/GrooveClient.cs:340-345 | the base entries, plus `genre` only when non-null and non-empty |
| RequestBuilder.LocationParameters | src/GrooveApiClient/GrooveClient.cs:392-396 | accessToken and country as in the base dictionary, plus `clientInstanceId` exactly when non-empty |
| RequestBuilder.FormatRequestHeaders | src/GrooveApiClient/GrooveClient.cs:550-564 | `X-Client-Name` is `GrooveClientSDK` and `X-Client-Version` is the client version; `Authorization` is present exactly when a value is given, and then verbatim; there is no other key |
| RequestBuilder.DropLeadingEmpty | src/GrooveApiClient/GrooveClient.cs:130-132 | the ids left after the fold's leading empty ones start with a non-empty id |
| RequestBuilder.AggregateFromNonEmpty | src/GrooveApiClient/GrooveClient.cs:130-132 | once the accumulator is non-empty, the fold appends `+` and each id in order |
| RequestBuilder.AggregateIds | src/GrooveApiClient/GrooveClient.cs:130-132 | the `Aggregate` fold only appends: the accumulator it starts from is a prefix of its result |
| RequestBuilder.JoinIds | src/GrooveApiClient/GrooveClient.cs:130-132 | the ids segment of the lookup path is the `+`-join of the ids in list order, after any leading empty ids |
| RequestBuilder.LookupIdsRecoverable | src/GrooveApiClient/GrooveClient.cs:130-139 | non-empty ids without `+` can be read back from the lookup path segment |
| RequestBuilder.SingleIdLookupPath | src/GrooveApiClient/GrooveClient.cs:166-174 | a single id gives the path `/1/content/{id}/lookup`, the same as a one-element list |
| UserAuthorization.ApiCallWithUserAuthorizationHeaderRefresh | src/GrooveApiClient/GrooveClient.cs:490-517 | the wrapper's steps: a non-forced header fetch, a call, and one forced fetch and a second call only after INVALID_AUTHORIZATION_HEADER; a null or empty header or a missing manager ends it before the call |
| UserAuthorization.RefreshBounds | src/GrooveApiClient/GrooveClient.cs:494-513 | at most two fetches and two calls; the first fetch is not forced and the second is; every call carries the headers of the non-empty header fetched just before it |
| UserAuthorization.RefreshOnlyAfterRejection | src/GrooveApiClient/GrooveClient.cs:504-514 | the forced refresh happens exactly when the first response carries INVALID_AUTHORIZATION_HEADER |
| UserAuthorization.ResultIsLastCall | src/GrooveApiClient/GrooveClient.cs:502-516 | when every fetch led to a call, the result is the response of the last call, and a single call was not rejected |
| UserAuthorization.NoCallWithoutHeader | src/GrooveApiClient/GrooveClient.cs:494-499 | nothing is sent exactly when there is no manager or the first header is null or empty; the call then fails, with the missing-manager error exactly when there is no manager |
| UserAuthorization.RequestHeadersDetermined | src/GrooveApiClient/GrooveClient.cs:550-564 | the version and the authorization value determine the header dictionary |
| UserAuthorization.RefreshProtocolDetermined | src/GrooveApiClient/GrooveClient.cs:490-517 | the manager and the call determine the result, the fetches and the calls |
| ClientCalls.AppToken | src/GrooveApiClient/GrooveClient.cs:525-529 | the token string is available exactly when renewal succeeded with a token; a null token fails with NoApplicationToken, and a failed renewal passes its error on |
| ClientCalls.SentHeaders | src/GrooveApiClient/GrooveClient.cs:500-513 | the header dictionaries of the requests sent, one per request |
| ClientCalls.Dispatch | src/GrooveApiClient/GrooveClient.cs:70-90 | the request is sent once without headers, once with identity headers, or through the refresh wrapper, as the mode says, and only its headers vary between attempts |
| ClientCalls.DispatchedShape | src/GrooveApiClient/GrooveClient.cs:70-90 | at most two requests, two only through the wrapper, and exactly one otherwise; a request lacks a header dictionary exactly in the headerless mode; the identity headers are always present |
| GrooveClient.RouteRule | src/GrooveApiClient/GrooveClient.cs:70-90 | the wrapper is used exactly for user data, and for catalog reads while a signed-in manager is present; only the genre list sends no headers; the rest send headers without Authorization |
| GrooveClient.Client.constructor | src/GrooveApiClient/GrooveClient.cs:24-45 | the client keeps the shared cache and the manager, and its version is the assembly's `Major.Minor` |
| GrooveClient.Client.ApplicationToken | src/GrooveApiClient/GrooveClient.cs:525 | one cache step; the token string or the error it ends in |
| GrooveClient.Client.Send | src/GrooveApiClient/GrooveClient.cs:70-90 | dispatch by the route for the operation's kind and the client's manager |
| GrooveClient.Client.SearchApi | src/GrooveApiClient/GrooveClient.cs:48-91 | a GET of `/1/content/{ns}/search` with the search dictionary, routed as a catalog read; nothing is sent when no token is available |
| GrooveClient.Client.Search | src/GrooveApiClient/GrooveClient.cs:93-103 | a search without a continuation token |
| GrooveClient.Client.SearchContinuation | src/GrooveApiClient/GrooveClient.cs:105-110 | a search with only a continuation token and the default filter |
| GrooveClient.Client.LookupApi | src/GrooveApiClient/GrooveClient.cs:114-154 | a GET of `/1/content/{ids}/lookup` with the ids `+`-joined and the lookup dictionary, routed as a catalog read |
| GrooveClient.Client.Lookup | src/GrooveApiClient/GrooveClient.cs:156-164 | a lookup of a list of ids without a continuation token |
| GrooveClient.Client.LookupOne | src/GrooveApiClient/GrooveClient.cs:166-174 | a lookup of one id builds exactly the request of a one-element list |
| GrooveClient.Client.LookupContinuation | src/GrooveApiClient/GrooveClient.cs:176-181 | a lookup of a list with only a continuation token and no extras |
| GrooveClient.Client.LookupOneContinuation | src/GrooveApiClient/GrooveClient.cs:183-188 | the same for one id |
| GrooveClient.Client.BrowseApi | src/GrooveApiClient/GrooveClient.cs:192-238 | a GET of `/1/content/{ns}/{source}/{type}/browse` with the browse dictionary, routed as a catalog read |
| GrooveClient.Client.Browse | src/GrooveApiClient/GrooveClient.cs:240-252 | a browse without a continuation token |
| GrooveClient.Client.BrowseContinuation | src/GrooveApiClient/GrooveClient.cs:254-261 | a browse with only a continuation token |
| GrooveClient.Client.SubBrowseApi | src/GrooveApiClient/GrooveClient.cs:263-306 | a GET of `/1/content/{id}/{source}/{browseType}/{extra}/browse` with the paged dictionary, routed as a catalog read |
| GrooveClient.Client.SubBrowse | src/GrooveApiClient/GrooveClient.cs:308-320 | a sub-browse without a continuation token |
| GrooveClient.Client.SubBrowseContinuation | src/GrooveApiClient/GrooveClient.cs:322-330 | a sub-browse with only a continuation token |
| GrooveClient.Client.Discover | src/GrooveApiClient/GrooveClient.cs:334-353 | a GET of `/1/content/{ns}/{type}` with the discover dictionary and identity headers without Authorization |
| GrooveClient.Client.Spotlight | src/GrooveApiClient/GrooveClient.cs:355-361 | discovery of type `spotlight` with no genre |
| GrooveClient.Client.NewReleases | src/GrooveApiClient/GrooveClient.cs:363-370 | discovery of type `newreleases` with the genre |
| GrooveClient.Client.BrowseGenres | src/GrooveApiClient/GrooveClient.cs:372-383 | a GET of `/1/content/{ns}/catalog/genres` with only the base entries, sent without any header dictionary |
| GrooveClient.Client.Location | src/GrooveApiClient/GrooveClient.cs:387-418 | a GET of `/1/content/{id}/{type}` with the location dictionary, routed as a catalog read |
| GrooveClient.Client.Stream | src/GrooveApiClient/GrooveClient.cs:420-425 | a location of type `stream` without country |
| GrooveClient.Client.Preview | src/GrooveApiClient/GrooveClient.cs:427-433 | a location of type `preview` with the country |
| GrooveClient.Client.CollectionOperation | src/GrooveApiClient/GrooveClient.cs:437-452 | a POST of the JSON payload to `/1/content/{ns}/collection/{operation}` with only accessToken, always through the wrapper |
| GrooveClient.Client.PlaylistOperation | src/GrooveApiClient/GrooveClient.cs:454-469 | a POST of the JSON payload to `/1/content/{ns}/collection/playlists/{operation}` with only accessToken, always through the wrapper |
| GrooveClient.Client.GetUserProfile | src/GrooveApiClient/GrooveClient.cs:473-487 | a GET of `/1/user/{ns}/profile` with the base entries, always through the wrapper |
| LegacyClient.BearerOf | GrooveApiClient/GrooveClient.cs:362-365 | an Authorization value exists exactly for a non-null user token, and is `Bearer ` followed by it |
| LegacyClient.LegacyHeaders | GrooveApiClient/GrooveClient.cs:354-368 | the legacy headers: the client name, version `1`, and `Bearer <token>` exactly when a token is given, and nothing else |
| LegacyClient.SingleTransportCall | GrooveApiClient/GrooveClient.cs:29-162 | a legacy operation fetches no user header and makes at most one transport call, exactly when a request was built, and returns its response |
| LegacyClient.LegacyBrowseIsGenrelessBrowse | GrooveApiClient/GrooveClient.cs:90-120 | the legacy browse request is exactly the current browse request without a genre |
| LegacyClient.Client.constructor | GrooveApiClient/GrooveClient.cs:24-27 | the legacy client owns a fresh, empty cache for its credentials |
| LegacyClient.Client.ApplicationToken | GrooveApiClient/GrooveClient.cs:329 | one cache step; the token string or the error it ends in |
| LegacyClient.Client.SearchApi | GrooveApiClient/GrooveClient.cs:29-59 | the current search request, sent once with the legacy headers for the user token |
| LegacyClient.Client.Search | GrooveApiClient/GrooveClient.cs:164-175 | a search without a continuation token |
| LegacyClient.Client.SearchContinuation | GrooveApiClient/GrooveClient.cs:177-183 | a search with only a continuation token |
| LegacyClient.Client.LookupApi | GrooveApiClient/GrooveClient.cs:61-88 | the current lookup request, sent once with the legacy headers for the user token |
| LegacyClient.Client.Lookup | GrooveApiClient/GrooveClient.cs:185-194 | a lookup of a list without a continuation token |
| LegacyClient.Client.LookupOne | GrooveApiClient/GrooveClient.cs:196-205 | a lookup of one id, as a one-element list |
| LegacyClient.Client.LookupContinuation | GrooveApiClient/GrooveClient.cs:207-213 | a lookup with only a continuation token |
| LegacyClient.Client.LookupOneContinuation | GrooveApiClient/GrooveClient.cs:215-221 | the same for one id |
| LegacyClient.Client.BrowseApi | GrooveApiClient/GrooveClient.cs:90-120 | a browse with the paged dictionary and no genre, sent once with the legacy headers |
| LegacyClient.Client.Browse | GrooveApiClient/GrooveClient.cs:223-235 | a browse without a continuation token |
| LegacyClient.Client.BrowseContinuation | GrooveApiClient/GrooveClient.cs:237-245 | a browse with only a continuation token |
| LegacyClient.Client.Discover | GrooveApiClient/GrooveClient.cs:122-141 | discovery with headers built from a null token, so without Authorization |
| LegacyClient.Client.Spotlight | GrooveApiClient/GrooveClient.cs:247-253 | discovery of type `spotlight` |
| LegacyClient.Client.NewReleases | GrooveApiClient/GrooveClient.cs:255-262 | discovery of type `newreleases` with the genre |
| LegacyClient.Client.BrowseGenres | GrooveApiClient/GrooveClient.cs:264-275 | the genre list, sent without any header dictionary |
| LegacyClient.Client.CollectionOperation | GrooveApiClient/GrooveClient.cs:277-290 | the collection POST, sent without headers whatever user token is passed |
| LegacyClient.Client.PlaylistOperation | GrooveApiClient/GrooveClient.cs:292-305 | the playlist POST, sent without headers whatever user token is passed |
| LegacyClient.Client.Location | GrooveApiClient/GrooveClient.cs:143-162 | the location request, sent once with the legacy headers for the user token |
| LegacyClient.Client.Stream | GrooveApiClient/GrooveClient.cs:307-313 | a stream location that forwards the user token |
| LegacyClient.Client.Preview | GrooveApiClient/GrooveClient.cs:315-321 | a preview location that never forwards a user token |
| ClientInstanceId.ToInt16Bits | samples/UniversalApplication/Helpers/StreamClientInstanceId.cs:31-32 | the little-endian read keeps all 16 bits, and the value is negative exactly when the high byte's top bit is set |
| ClientInstanceId.ToInt16Injective | samples/UniversalApplication/Helpers/StreamClientInstanceId.cs:31-32 | the two bytes can be recovered from the short read |
| ClientInstanceId.Hex4 | samples/UniversalApplication/Helpers/StreamClientInstanceId.cs:41 | `ToString("X4")` of a short is exactly four characters |
| ClientInstanceId.Hex4RoundTrip | samples/UniversalApplication/Helpers/StreamClientInstanceId.cs:41 | the four digits read back as the short's 16 bits, so distinct shorts print differently |
| ClientInstanceId.PadRight | samples/UniversalApplication/Helpers/StreamClientInstanceId.cs:45 | `PadRight` keeps the string as a prefix, pads only on the right with the pad character, and never truncates |
| ClientInstanceId.GetStableClientInstanceId | samples/UniversalApplication/Helpers/StreamClientInstanceId.cs:21-47 | the loop fails exactly when the token's length is not a multiple of four; otherwise the result is the package name, a colon and four digits per stable record, padded with `X` to 32 |
| ClientInstanceId.EncodedPrefix | samples/UniversalApplication/Helpers/StreamClientInstanceId.cs:27 | the identifier starts with the package name and a colon |
| ClientInstanceId.EncodedLength | samples/UniversalApplication/Helpers/StreamClientInstanceId.cs:45 | its length is the larger of 32 and the prefix plus four per stable record |
| ClientInstanceId.EncodedLayout | samples/UniversalApplication/Helpers/StreamClientInstanceId.cs:27-45 | the digits follow the prefix and everything after them is `X` |
| ClientInstanceId.ComponentsRecoverable | samples/UniversalApplication/Helpers/StreamClientInstanceId.cs:29-43 | the digits decode, four at a time, to the 16 bits of each stable value in record order |
| ClientInstanceId.HexOfRoundTrip | samples/UniversalApplication/Helpers/StreamClientInstanceId.cs:41 | a run of four-digit groups decodes to the values it was written from |
| ClientInstanceId.KeptValuesAppend | samples/UniversalApplication/Helpers/StreamClientInstanceId.cs:29-43 | records are taken in order: a token's values are those of its two halves, one after the other |
| ClientInstanceId.SingleRecord | samples/UniversalApplication/Helpers/StreamClientInstanceId.cs:35-42 | a one-record token yields its value exactly when its type is 1, 2, 3 or 9 |
| ClientInstanceId.UnstableRecordIgnored | samples/UniversalApplication/Helpers/StreamClientInstanceId.cs:39 | removing a record of any other type leaves the identifier unchanged |
| ContentLists.GetAllContentLists | tests/GrooveApiClient.Tests/TestBaseExtensions.cs:29-35 | exactly four lists, null ones included, in the order Artists, Albums, Tracks, Playlists |
| ContentLists.WhereHasItems | tests/GrooveApiClient.Tests/TestBaseExtensions.cs:25 | the kept lists are no more than the input and all carry items |
| ContentLists.WhereKeepsListsWithItems | tests/GrooveApiClient.Tests/TestBaseExtensions.cs:25 | the filter keeps exactly the present lists that carry items, as many as there are |
| ContentLists.WhereThenSelect | tests/GrooveApiClient.Tests/TestBaseExtensions.cs:23-26 | filtering then flattening is concatenating every list's items, absent lists giving none |
| ContentLists.GetAllTopLevelContent | tests/GrooveApiClient.Tests/TestBaseExtensions.cs:21-35 | the top-level content is the artists' items, then the albums', the tracks' and the playlists', with absent lists giving none |
| ContentLists.TopLevelContentCount | tests/GrooveApiClient.Tests/TestBaseExtensions.cs:21-35 | its length is the sum of the four lists' item counts |
| ContentLists.TopLevelContentMembership | tests/GrooveApiClient.Tests/TestBaseExtensions.cs:21-35 | an item is top-level content exactly when it is in one of the four lists |
| ContentLists.NoListsNoContent | tests/GrooveApiClient.Tests/TestBaseExtensions.cs:21-27 | with all four lists absent or empty there is no top-level content |
| MusicContentPane.ObservableCollection.Clear | samples/UniversalApplication/ViewModels/MusicContentPaneViewModel.cs:55-58 | the collection becomes empty |
| MusicContentPane.ObservableCollection.Add | samples/UniversalApplication/ViewModels/MusicContentPaneViewModel.cs:46-49 | the item is appended at the end |
| MusicContentPane.Displayed | samples/UniversalApplication/ViewModels/MusicContentPaneViewModel.cs:31-39 | a kind shows nothing for a null response, and otherwise the items of that kind's list, or nothing when the list or its items are null |
| MusicContentPane.PaneShowsTopLevelContent | samples/UniversalApplication/ViewModels/MusicContentPaneViewModel.cs:31-39 | the four collections read in list order hold exactly the response's top-level content |
| MusicContentPane.MusicContentPaneViewModel.constructor | samples/UniversalApplication/ViewModels/MusicContentPaneViewModel.cs:23-29 | four new, distinct, empty collections |
| MusicContentPane.MusicContentPaneViewModel.DisplayMusicContent | samples/UniversalApplication/ViewModels/MusicContentPaneViewModel.cs:31-39 | the old contents are discarded, each collection holds its kind's items in order, and together they are the top-level content |
| MusicContentPane.MusicContentPaneViewModel.AddMusicContent | samples/UniversalApplication/ViewModels/MusicContentPaneViewModel.cs:41-51 | a null list leaves the target unchanged; otherwise every item is appended to that target alone, in order |
| MusicContentPane.MusicContentPaneViewModel.ResetMusicContent | samples/UniversalApplication/ViewModels/MusicContentPaneViewModel.cs:53-59 | all four collections are empty |

## Left out

- Transport: `SimpleServiceClient`, `HttpClient`, JSON serialisation and `FormUrlEncodedContent` are library code. The transport is an oracle from (attempt, request) to a response or an exception. Response bodies are opaque apart from the error code.
- Asynchrony and concurrency: `Task`, `await` and the unsynchronised read-check-write of the token cache (`AzureDataMarketAuthenticationCache.cs:52`) are modelled as a sequential step. `CancellationToken` arguments are dropped.
- Time: `DateTime.UtcNow` and `TimeSpan.FromSeconds(Convert.ToDouble(...))` are replaced by two integer clock readings and integer seconds. There is a reading for the expiry test and a reading for after the service answers.
- `Enum.ToString()` of a `[Flags]` value: the order and spelling of the member names are taken as given, as a non-empty sequence of names. `Default` and `None` are recognised as the one-name sequences. The numeric flag values are not modelled.
- `Uri.EscapeDataString` is modelled after RFC 3986 and RFC 3629. A lone surrogate is not represented, because Dafny's `char` is a Unicode scalar value. The framework's treatment of lone surrogates is not modelled.
- The user token manager and the platform account managers (`UserAccountManagerWithNotifications.cs`, `WindowsUniversalUserAccountManager.cs`) are an oracle: a signed-in flag and a header for each `forceRefresh` flag.
- `GrooveClientFactory.cs` only calls a constructor and is not part of this model. The constructor it calls is absent from the source.
- `HardwareIdentification` and `Package.Current` are inputs: the token bytes and the package name.
- GetStableClientInstanceId: `BitConverter` throws when a record runs past the end of the token. Both reads of one record are merged into one `None`. Positions are not distinguished.
- Items and ReadOnlyItems of a paginated list are one field. Null elements inside an item list are not modelled.
- The rest of the data contract (`Genre.cs` and the content fields beyond kind, id and name) is not part of this model, because no operation looks at it.
- The UI: XAML pages, converters, `PropertyChanged` plumbing of the view model, and the other view models are left out, because they are platform binding code.
- The logging helpers of `TestBaseExtensions.cs` and the integration tests are left out. They report on or exercise the live service.
- A null answer from the authentication service is not an error: as the code does, the old token, possibly expired or null, is kept and returned. The caller then uses an expired token, or fails with `NoApplicationToken` when there is none.
- The browse path interpolates the source with `Enum.ToString()`, not the `+`-joined form of the parameters. A combined source therefore keeps its `", "` separator in the path. This is modelled as written.
- The lookup-id fold (`Aggregate`) inserts `+` only after a non-empty accumulator, so leading empty ids vanish without a separator. Later empty ids leave `++`. This is modelled as written.
