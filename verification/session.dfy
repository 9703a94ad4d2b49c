/** How the credential transitions change what `__generate_header` decides. */
module Session {
  import opened Results
  import opened Types
  import opened Credentials
  import opened Headers

  /** After `set_user_authentication(token, scopes)` a USER request succeeds
      exactly when its scopes are among `scopes`, and then carries `token`. */
  lemma SetUserEnablesUserRequests(c: Client, token: string, scopes: seq<AuthScope>, required: seq<AuthScope>)
    ensures var r := GenerateHeader(SetUserAuthentication(c, token, scopes), User, required);
      && (r.Success? <==> Granted(required, scopes))
      && (r.Success? ==> r.value[AuthorizationHeader] == "Bearer " + token)
      && (r.Failure? ==> r.error.MissingScope? && IsFirstMissing(r.error.scope, required, scopes))
  {
  }

  /** `set_user_authentication` leaves every APP decision as it was. */
  lemma SetUserLeavesAppRequests(c: Client, token: string, scopes: seq<AuthScope>, required: seq<AuthScope>)
    ensures GenerateHeader(SetUserAuthentication(c, token, scopes), App, required) == GenerateHeader(c, App, required)
  {
  }

  /** Once a user token is set, requests without an auth mode carry it, even
      when an app token is present too. */
  lemma SetUserWinsWithoutMode(c: Client, token: string, scopes: seq<AuthScope>, required: seq<AuthScope>)
    ensures var r := GenerateHeader(SetUserAuthentication(c, token, scopes), NoAuth, required);
      r.Success? && AuthorizationHeader in r.value && r.value[AuthorizationHeader] == "Bearer " + token
  {
  }

  /** After a successful `authenticate_app(scopes)` an APP request succeeds
      exactly when its scopes are among `scopes`, and carries the new token. */
  lemma AuthenticateAppEnablesAppRequests(c: Client, scopes: seq<AuthScope>, response: TokenResponse, required: seq<AuthScope>)
    requires ExchangeSucceeds(response)
    ensures var r := GenerateHeader(AuthenticateApp(c, scopes, response).client, App, required);
      && (r.Success? <==> Granted(required, scopes))
      && (r.Success? ==> r.value[AuthorizationHeader] == Bearer(response.body.accessToken.value))
  {
  }

  /** After a reply whose `access_token` is JSON null, APP requests whose
      scopes were asked for are sent with the text "Bearer None". */
  lemma NullAccessTokenSendsBearerNone(c: Client, scopes: seq<AuthScope>, required: seq<AuthScope>)
    requires Granted(required, scopes)
    ensures var r := GenerateHeader(AuthenticateApp(c, scopes, TokenResponse(StatusOk, JsonObject(Some(None)))).client,
                                    App, required);
      r.Success? && r.value[AuthorizationHeader] == "Bearer None"
  {
  }

  /** A client that never had app authentication still refuses APP requests
      after an exchange answered with a status other than 200. */
  lemma RejectedExchangeLeavesAppUnauthorized(c: Client, scopes: seq<AuthScope>, response: TokenResponse, required: seq<AuthScope>)
    requires !c.app.present && response.status != StatusOk
    ensures AuthenticateApp(c, scopes, response).outcome == Fail(AuthenticationFailed(response.status))
    ensures GenerateHeader(AuthenticateApp(c, scopes, response).client, App, required) == Failure(Unauthorized(AppSide))
  {
  }

  /** A failed re-authentication keeps the earlier app token but checks APP
      requests against the scopes just asked for: the scope check then
      passes for scopes the stored token was never granted. */
  lemma FailedReauthenticationKeepsOldToken(c: Client, scopes: seq<AuthScope>, response: TokenResponse, required: seq<AuthScope>)
    requires c.app.present && !ExchangeSucceeds(response)
    ensures var r := GenerateHeader(AuthenticateApp(c, scopes, response).client, App, required);
      && (r.Success? <==> Granted(required, scopes))
      && (r.Success? ==> r.value[AuthorizationHeader] == Bearer(c.app.token))
  {
  }

  /** On a consistent state every Authorization header carries a token that
      was actually stored, never the rendering of a missing one. */
  lemma HeadersCarryStoredTokens(c: Client, mode: AuthType, required: seq<AuthScope>)
    requires Consistent(c)
    ensures var r := GenerateHeader(c, mode, required);
      r.Success? && AuthorizationHeader in r.value ==>
        || (c.user.present && r.value[AuthorizationHeader] == "Bearer " + c.user.token.value)
        || (c.app.present && r.value[AuthorizationHeader] == "Bearer " + c.app.token.value)
  {
  }

  /** Hence on every state a client can reach through its public operations,
      provided no token reply carried a null `access_token`. */
  lemma {:induction false} ReachableHeadersCarryStoredTokens(appId: string, appSecret: string, actions: seq<Action>,
                                                            mode: AuthType, required: seq<AuthScope>)
    requires NoNullTokens(actions)
    ensures var c := Run(NewClient(appId, appSecret), actions);
      var r := GenerateHeader(c, mode, required);
      r.Success? && AuthorizationHeader in r.value ==>
        || (c.user.present && c.user.token.Some? && r.value[AuthorizationHeader] == "Bearer " + c.user.token.value)
        || (c.app.present && c.app.token.Some? && r.value[AuthorizationHeader] == "Bearer " + c.app.token.value)
  {
    RunConsistent(NewClient(appId, appSecret), actions);
    HeadersCarryStoredTokens(Run(NewClient(appId, appSecret), actions), mode, required);
  }

  /** A fresh client sends requests without an auth mode with no
      Authorization header and refuses APP and USER requests. */
  lemma FreshClientHeaders(appId: string, appSecret: string, required: seq<AuthScope>)
    ensures GenerateHeader(NewClient(appId, appSecret), NoAuth, required) == Success(map[ClientIdHeader := appId])
    ensures GenerateHeader(NewClient(appId, appSecret), App, required) == Failure(Unauthorized(AppSide))
    ensures GenerateHeader(NewClient(appId, appSecret), User, required) == Failure(Unauthorized(UserSide))
  {
  }
}
