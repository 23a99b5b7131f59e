/**
 * User-authorised calls of the current client: the Authorization header
 * comes from the user token manager, and a call the service rejects with
 * INVALID_AUTHORIZATION_HEADER is repeated once with a forcibly refreshed
 * header.
 */
module UserAuthorization {
  import opened Wrappers
  import opened Text
  import opened Http
  import opened RequestBuilder

  const InvalidAuthorizationHeader := "INVALID_AUTHORIZATION_HEADER"

  /**
   * IUserTokenManager as the client sees it: whether a user is signed in,
   * and the header it hands out for a given forceRefresh flag (None for null).
   */
  datatype UserTokenManager = UserTokenManager(userIsSignedIn: bool, getUserAuthorizationHeader: bool -> Option<string>)

  /** `_userTokenManager?.UserIsSignedIn == true`: false without a manager. */
  predicate UserIsSignedIn(manager: Option<UserTokenManager>) {
    manager.Some? && manager.value.userIsSignedIn
  }

  /** The response's Error carries the INVALID_AUTHORIZATION_HEADER code. */
  predicate IsInvalidAuthorization(d: Delivery) {
    && d.Delivered?
    && d.response.error.Some?
    && d.response.error.value.errorCode == Some(InvalidAuthorizationHeader)
  }

  /**
   * The protocol of ApiCallWithUserAuthorizationHeaderRefreshAsync, as a
   * relation between the manager, the call and what was observed: the
   * forceRefresh flags asked of the manager, the header dictionaries sent
   * (call i is `apiCall(i, sent[i])`) and the result.
   */
  predicate RefreshProtocol(manager: Option<UserTokenManager>, version: string, apiCall: (nat, Headers) -> Delivery,
                            r: Result<ApiResponse, ClientError>, fetches: seq<bool>, sent: seq<Headers>)
  {
    if manager.None? then
      r == Failure(NoUserTokenManager) && fetches == [] && sent == []
    else
      var first := manager.value.getUserAuthorizationHeader(false);
      if IsNullOrEmpty(first) then
        r == Failure(MissingUserAuthorizationHeader) && fetches == [false] && sent == []
      else
        && |sent| >= 1
        && IsRequestHeaders(sent[0], version, first)
        && if !IsInvalidAuthorization(apiCall(0, sent[0])) then
             fetches == [false] && |sent| == 1 && r == Outcome(apiCall(0, sent[0]))
           else
             var second := manager.value.getUserAuthorizationHeader(true);
             && fetches == [false, true]
             && if IsNullOrEmpty(second) then
                  |sent| == 1 && r == Failure(MissingUserAuthorizationHeader)
                else
                  |sent| == 2 && IsRequestHeaders(sent[1], version, second) && r == Outcome(apiCall(1, sent[1]))
  }

  /** ApiCallWithUserAuthorizationHeaderRefreshAsync. */
  method ApiCallWithUserAuthorizationHeaderRefresh(manager: Option<UserTokenManager>, version: string,
                                                   apiCall: (nat, Headers) -> Delivery)
    returns (r: Result<ApiResponse, ClientError>, fetches: seq<bool>, sent: seq<Headers>)
    ensures RefreshProtocol(manager, version, apiCall, r, fetches, sent)
  {
    fetches := [];
    sent := [];
    if manager.None? {
      return Failure(NoUserTokenManager), fetches, sent;
    }
    var userAuthorizationHeader := manager.value.getUserAuthorizationHeader(false);
    fetches := [false];
    if IsNullOrEmpty(userAuthorizationHeader) {
      return Failure(MissingUserAuthorizationHeader), fetches, sent;
    }
    var requestHeaders := FormatRequestHeaders(version, userAuthorizationHeader);
    sent := [requestHeaders];
    var response := apiCall(0, requestHeaders);
    if IsInvalidAuthorization(response) {
      userAuthorizationHeader := manager.value.getUserAuthorizationHeader(true);
      fetches := fetches + [true];
      if IsNullOrEmpty(userAuthorizationHeader) {
        return Failure(MissingUserAuthorizationHeader), fetches, sent;
      }
      requestHeaders := FormatRequestHeaders(version, userAuthorizationHeader);
      sent := sent + [requestHeaders];
      response := apiCall(1, requestHeaders);
    }
    r := Outcome(response);
  }

  /**
   * At most two calls and at most one forced refresh; a call is made only
   * with a non-empty header, the one fetched just before it, and the
   * manager is asked first without and then with forceRefresh.
   */
  lemma RefreshBounds(manager: Option<UserTokenManager>, version: string, apiCall: (nat, Headers) -> Delivery,
                      r: Result<ApiResponse, ClientError>, fetches: seq<bool>, sent: seq<Headers>)
    requires RefreshProtocol(manager, version, apiCall, r, fetches, sent)
    ensures |sent| <= |fetches| <= 2
    ensures forall i :: 0 <= i < |fetches| ==> fetches[i] == (i == 1)
    ensures forall i :: 0 <= i < |sent| ==>
      var header := manager.value.getUserAuthorizationHeader(fetches[i]);
      !IsNullOrEmpty(header) && IsRequestHeaders(sent[i], version, header)
  {
  }

  /** The forced refresh happens exactly when the first call came back with INVALID_AUTHORIZATION_HEADER. */
  lemma RefreshOnlyAfterRejection(manager: Option<UserTokenManager>, version: string, apiCall: (nat, Headers) -> Delivery,
                                  r: Result<ApiResponse, ClientError>, fetches: seq<bool>, sent: seq<Headers>)
    requires RefreshProtocol(manager, version, apiCall, r, fetches, sent)
    ensures |fetches| == 2 <==> |sent| >= 1 && IsInvalidAuthorization(apiCall(0, sent[0]))
  {
  }

  /**
   * Whenever a call was made, the result is the last call's; a rejected
   * result reaches the caller only after the retry, never without it.
   */
  lemma ResultIsLastCall(manager: Option<UserTokenManager>, version: string, apiCall: (nat, Headers) -> Delivery,
                         r: Result<ApiResponse, ClientError>, fetches: seq<bool>, sent: seq<Headers>)
    requires RefreshProtocol(manager, version, apiCall, r, fetches, sent)
    requires |sent| == |fetches|
    ensures |sent| >= 1 ==> r == Outcome(apiCall(|sent| - 1, sent[|sent| - 1]))
    ensures |sent| == 1 ==> !IsInvalidAuthorization(apiCall(0, sent[0]))
  {
  }

  /** No call is made without a manager, or when its unforced header is null or empty. */
  lemma NoCallWithoutHeader(manager: Option<UserTokenManager>, version: string, apiCall: (nat, Headers) -> Delivery,
                            r: Result<ApiResponse, ClientError>, fetches: seq<bool>, sent: seq<Headers>)
    requires RefreshProtocol(manager, version, apiCall, r, fetches, sent)
    ensures sent == [] <==> manager.None? || IsNullOrEmpty(manager.value.getUserAuthorizationHeader(false))
    ensures sent == [] ==> r.Failure? && (r.error == NoUserTokenManager <==> manager.None?)
  {
  }

  /** Two header dictionaries that satisfy the same description are equal. */
  lemma RequestHeadersDetermined(h1: Headers, h2: Headers, version: string, authorization: Option<string>)
    requires IsRequestHeaders(h1, version, authorization) && IsRequestHeaders(h2, version, authorization)
    ensures h1 == h2
  {
  }

  /** The protocol leaves no freedom: the manager and the call determine the result and everything observed. */
  lemma {:induction false} RefreshProtocolDetermined(manager: Option<UserTokenManager>, version: string,
                                                     apiCall: (nat, Headers) -> Delivery,
                                                     r1: Result<ApiResponse, ClientError>, fetches1: seq<bool>, sent1: seq<Headers>,
                                                     r2: Result<ApiResponse, ClientError>, fetches2: seq<bool>, sent2: seq<Headers>)
    requires RefreshProtocol(manager, version, apiCall, r1, fetches1, sent1)
    requires RefreshProtocol(manager, version, apiCall, r2, fetches2, sent2)
    ensures r1 == r2 && fetches1 == fetches2 && sent1 == sent2
  {
    if |sent1| >= 1 {
      RequestHeadersDetermined(sent1[0], sent2[0], version, manager.value.getUserAuthorizationHeader(false));
      if |sent1| == 2 {
        RequestHeadersDetermined(sent1[1], sent2[1], version, manager.value.getUserAuthorizationHeader(true));
      }
    }
  }
}
