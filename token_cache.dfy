/**
 * The application token cache: one mutable field holding the last token,
 * renewed through the authentication client when it is missing or has
 * expired. Time is an integer clock in seconds.
 */
module TokenCache {
  import opened Wrappers
  import opened Http
  import AuthenticationClient

  /** A cached application token and the instant it stops being reused. */
  datatype AccessToken = AccessToken(token: string, expiration: int)

  /** The authentication service's answer: the token and its lifetime in seconds. */
  datatype AuthenticationResponse = AuthenticationResponse(accessToken: string, expiresIn: int)

  /** What AuthenticateAsync gives back: a response, null, or an exception. */
  datatype AuthOutcome = Authenticated(response: AuthenticationResponse) | NullResponse | AuthCallFailed

  /** The two readings of DateTime.UtcNow: for the expiry test, and after the authentication call returns. */
  datatype Clock = Clock(checkedAt: int, renewedAt: int)

  /** The renewal test of CheckAndRenewTokenAsync: no token, or one whose expiration is strictly before now. */
  predicate NeedsRenewal(t: Option<AccessToken>, now: int) {
    t.None? || t.value.expiration < now
  }

  /** The token built from a response: expiration is the clock after the call plus the lifetime. */
  function Renewed(response: AuthenticationResponse, renewedAt: int): AccessToken {
    AccessToken(response.accessToken, renewedAt + response.expiresIn)
  }

  /**
   * What one CheckAndRenewTokenAsync does with the field's value `before`:
   * reuse it, replace it from a response, keep it on a null response, or
   * fail when the authentication call raises.
   */
  function RenewalResult(before: Option<AccessToken>, clientId: string, clientSecret: string, clock: Clock,
                         authenticate: Request -> AuthOutcome): Result<Option<AccessToken>, ClientError>
  {
    if !NeedsRenewal(before, clock.checkedAt) then Success(before)
    else
      match authenticate(AuthenticationClient.AuthenticateRequest(clientId, clientSecret))
      case AuthCallFailed => Failure(AuthenticationFailed)
      case NullResponse => Success(before)
      case Authenticated(response) => Success(Some(Renewed(response, clock.renewedAt)))
  }

  /** The field after the call: the returned value, or the old one when the call raised. */
  function TokenAfter(before: Option<AccessToken>, r: Result<Option<AccessToken>, ClientError>): Option<AccessToken> {
    if r.Success? then r.value else before
  }

  /** A cached token is never dropped: once present, the field stays present. */
  lemma RenewalKeepsToken(before: Option<AccessToken>, clientId: string, clientSecret: string, clock: Clock,
                          authenticate: Request -> AuthOutcome)
    ensures before.Some? ==> TokenAfter(before, RenewalResult(before, clientId, clientSecret, clock, authenticate)).Some?
  {
  }

  /** The renewal test decides everything: a valid token is reused whatever the authentication service would say. */
  lemma RenewalReusesValidToken(before: Option<AccessToken>, clientId: string, clientSecret: string, clock: Clock,
                                authenticate: Request -> AuthOutcome)
    requires before.Some? && clock.checkedAt <= before.value.expiration
    ensures RenewalResult(before, clientId, clientSecret, clock, authenticate) == Success(before)
  {
  }

  /**
   * Renewing with a non-negative lifetime gives a token that is not
   * expired at the instant of the check nor at the instant of the renewal.
   */
  lemma RenewalIsFresh(before: Option<AccessToken>, clientId: string, clientSecret: string, clock: Clock,
                       authenticate: Request -> AuthOutcome)
    requires NeedsRenewal(before, clock.checkedAt) && clock.checkedAt <= clock.renewedAt
    requires authenticate(AuthenticationClient.AuthenticateRequest(clientId, clientSecret)).Authenticated?
    requires authenticate(AuthenticationClient.AuthenticateRequest(clientId, clientSecret)).response.expiresIn >= 0
    ensures var r := RenewalResult(before, clientId, clientSecret, clock, authenticate);
      r.Success? && r.value.Some? && !NeedsRenewal(r.value, clock.checkedAt) && !NeedsRenewal(r.value, clock.renewedAt)
  {
  }

  class AuthenticationCache {
    const clientId: string
    const clientSecret: string
    var token: Option<AccessToken>

    constructor (clientId: string, clientSecret: string)
      ensures this.clientId == clientId && this.clientSecret == clientSecret
      ensures token == None
    {
      this.clientId := clientId;
      this.clientSecret := clientSecret;
      token := None;
    }

    /**
     * CheckAndRenewTokenAsync. `authenticate` stands for the authentication
     * client's transport; `calls` lists the requests handed to it.
     */
    method CheckAndRenewToken(clock: Clock, authenticate: Request -> AuthOutcome)
      returns (r: Result<Option<AccessToken>, ClientError>, calls: seq<Request>)
      modifies this
      // A present token that has not expired (expiration == now included) is reused without a call.
      ensures !NeedsRenewal(old(token), clock.checkedAt) ==> calls == [] && token == old(token)
      // A missing or expired token leads to exactly one call, with the credentials fixed at construction.
      ensures NeedsRenewal(old(token), clock.checkedAt) ==>
        calls == [AuthenticationClient.AuthenticateRequest(clientId, clientSecret)]
      // A response replaces the cached token wholesale.
      ensures |calls| == 1 && authenticate(calls[0]).Authenticated? ==>
        token == Some(Renewed(authenticate(calls[0]).response, clock.renewedAt))
      // A null response or an exception leaves the field as it was, possibly empty or expired.
      ensures |calls| == 1 && !authenticate(calls[0]).Authenticated? ==> token == old(token)
      // Only an exception of the authentication call fails; otherwise the field's new value is returned.
      ensures r.Failure? <==> |calls| == 1 && authenticate(calls[0]).AuthCallFailed?
      ensures r.Failure? ==> r.error == AuthenticationFailed
      ensures r.Success? ==> r.value == token
      // The whole step, as one function of the old field.
      ensures r == RenewalResult(old(token), clientId, clientSecret, clock, authenticate)
      ensures token == TokenAfter(old(token), r)
      // Once a token is cached the field never becomes empty again.
      ensures old(token).Some? ==> token.Some?
      // A renewal with a non-negative lifetime gives a token that is not expired at the instant of the call.
      ensures (|calls| == 1 && authenticate(calls[0]).Authenticated? && authenticate(calls[0]).response.expiresIn >= 0
               && clock.checkedAt <= clock.renewedAt) ==>
        !NeedsRenewal(token, clock.checkedAt) && !NeedsRenewal(token, clock.renewedAt)
    {
      calls := [];
      if token.None? || token.value.expiration < clock.checkedAt {
        var request := AuthenticationClient.AuthenticateRequest(clientId, clientSecret);
        calls := [request];
        var outcome := authenticate(request);
        match outcome {
          case AuthCallFailed =>
            r := Failure(AuthenticationFailed);
            return;
          case NullResponse =>
          case Authenticated(response) =>
            token := Some(AccessToken(response.accessToken, clock.renewedAt + response.expiresIn));
        }
      }
      r := Success(token);
    }
  }
}
