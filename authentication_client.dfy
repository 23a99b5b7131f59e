/**
 * The application authentication call: the OAuth 2.0 client-credentials
 * grant of section 4.4 of RFC 6749, sent as a form-urlencoded POST.
 */
module AuthenticationClient {
  import opened Wrappers
  import opened Http

  const Host := "https://datamarket.accesscontrol.windows.net"
  const TokenPath := "/v2/OAuth2-13"
  const Scope := "http://music.xboxlive.com/"
  const GrantType := "client_credentials"

  /** The request dictionary of AuthenticateAsync. */
  function RequestFields(clientId: string, clientSecret: string): (fields: map<string, string>)
    ensures fields.Keys == {"client_id", "client_secret", "scope", "grant_type"}
    ensures fields["client_id"] == clientId && fields["client_secret"] == clientSecret
    ensures fields["scope"] == Scope && fields["grant_type"] == GrantType
  {
    map["client_id" := clientId, "client_secret" := clientSecret, "scope" := Scope, "grant_type" := GrantType]
  }

  /** The POST AuthenticateAsync hands to the transport. */
  function AuthenticateRequest(clientId: string, clientSecret: string): (r: Request)
    ensures r.verb == Post && r.host == Host && r.path == TokenPath
    ensures r.parameters == map[] && r.headers == None
    ensures r.body.FormUrlEncoded? && r.body.fields == RequestFields(clientId, clientSecret)
  {
    Request(Post, Host, TokenPath, map[], None, FormUrlEncoded(RequestFields(clientId, clientSecret)))
  }

  /**
   * A token request of the client-credentials grant (RFC 6749 section
   * 4.4.2) carrying the client's credentials in the body (section 2.3.1).
   */
  predicate IsClientCredentialsRequest(r: Request, clientId: string, clientSecret: string) {
    && r.verb == Post
    && r.body.FormUrlEncoded?
    && "grant_type" in r.body.fields && r.body.fields["grant_type"] == "client_credentials"
    && "client_id" in r.body.fields && r.body.fields["client_id"] == clientId
    && "client_secret" in r.body.fields && r.body.fields["client_secret"] == clientSecret
  }

  /** The request is a client-credentials grant for exactly the given credentials, and nothing else is sent. */
  lemma AuthenticateRequestIsClientCredentialsGrant(clientId: string, clientSecret: string, otherId: string, otherSecret: string)
    ensures IsClientCredentialsRequest(AuthenticateRequest(clientId, clientSecret), clientId, clientSecret)
    ensures IsClientCredentialsRequest(AuthenticateRequest(clientId, clientSecret), otherId, otherSecret)
        <==> otherId == clientId && otherSecret == clientSecret
  {
  }

  /** Distinct credentials give distinct requests: the request determines the credentials. */
  lemma AuthenticateRequestInjective(id1: string, secret1: string, id2: string, secret2: string)
    requires AuthenticateRequest(id1, secret1) == AuthenticateRequest(id2, secret2)
    ensures id1 == id2 && secret1 == secret2
  {
    assert RequestFields(id1, secret1)["client_id"] == RequestFields(id2, secret2)["client_id"];
    assert RequestFields(id1, secret1)["client_secret"] == RequestFields(id2, secret2)["client_secret"];
  }
}
