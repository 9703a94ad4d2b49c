/** The client's credential state and the two operations that change it:
    `set_user_authentication` and `authenticate_app` (with the result handling
    of `__generate_app_token`). The HTTP exchange itself is not modelled; its
    response enters as a parameter. */
module Credentials {
  import opened Results
  import opened Types

  /** One credential: the stored token (Python `None` until first set), the
      granted scopes in the order the caller gave them, and the presence flag
      (`__has_app_auth` / `__has_user_auth`). */
  datatype Credential = Credential(token: Option<string>, scopes: seq<AuthScope>, present: bool)

  /** The state of a `Twitch` instance that the authorization core reads. */
  datatype Client = Client(appId: string, appSecret: string, app: Credential, user: Credential)

  /** The class-level defaults every fresh client starts from. */
  const Unset := Credential(None, [], false)

  /** `Twitch(app_id, app_secret)`: no credential is present yet. */
  function NewClient(appId: string, appSecret: string): Client
  {
    Client(appId, appSecret, Unset, Unset)
  }

  /** A credential marked present has had a token stored. Without this a
      header could be built from the token's absence ("Bearer None"). */
  predicate Consistent(c: Client)
  {
    && (c.app.present ==> c.app.token.Some?)
    && (c.user.present ==> c.user.token.Some?)
  }

  /** `set_user_authentication`: the user credential is replaced outright and
      marked present; nothing can fail and nothing else changes. */
  function SetUserAuthentication(c: Client, token: string, scopes: seq<AuthScope>): (c': Client)
    ensures c'.user.present && c'.user.token == Some(token) && c'.user.scopes == scopes
    ensures c'.app == c.app && c'.appId == c.appId && c'.appSecret == c.appSecret
    ensures Consistent(c) ==> Consistent(c')
  {
    c.(user := Credential(Some(token), scopes, true))
  }

  /** The body of the token endpoint's reply, as far as `result.json()` and
      `data['access_token']` can tell: not JSON at all (`ValueError`), some
      JSON value other than an object, on which the subscript raises an
      uncaught `TypeError`, or a JSON object. For an object, `accessToken` is
      `None` when the member is absent (`KeyError`), `Some(None)` when it is
      JSON null, which Python stores as `None` without complaint, and
      `Some(Some(t))` otherwise, `t` being the text the value renders as. */
  datatype TokenBody = NotJson | JsonObject(accessToken: Option<Option<string>>) | JsonOther

  /** The reply to the client-credentials POST. */
  datatype TokenResponse = TokenResponse(status: int, body: TokenBody)

  /** Why app authentication raised. */
  datatype AppAuthError =
    | AuthenticationFailed(status: int)
    | InvalidJsonBody
    | MissingAccessToken
    | UnexpectedJsonValue

  const StatusOk := 200

  /** The shape of reply from which a token value is taken. */
  predicate ExchangeSucceeds(response: TokenResponse)
  {
    response.status == StatusOk && response.body.JsonObject? && response.body.accessToken.Some?
  }

  /** A reply that is accepted although its token is JSON null. */
  predicate AcceptsNullToken(response: TokenResponse)
  {
    response.status == StatusOk && response.body == JsonObject(Some(None))
  }

  /** The result handling of `__generate_app_token`: the status code is looked
      at first, then whether the body is JSON, then the `access_token` key.
      The value taken is the one later stored, `None` included. */
  function ExchangeToken(response: TokenResponse): (r: Result<Option<string>, AppAuthError>)
    ensures r.Success? <==> ExchangeSucceeds(response)
    ensures r.Success? ==> Some(r.value) == response.body.accessToken
    ensures response.status != StatusOk ==> r == Failure(AuthenticationFailed(response.status))
    ensures response.status == StatusOk && response.body.NotJson? ==> r == Failure(InvalidJsonBody)
    ensures response.status == StatusOk && response.body.JsonOther? ==> r == Failure(UnexpectedJsonValue)
    ensures response.status == StatusOk && response.body == JsonObject(None) ==> r == Failure(MissingAccessToken)
  {
    if response.status != StatusOk then Failure(AuthenticationFailed(response.status))
    else match response.body
      case NotJson => Failure(InvalidJsonBody)
      case JsonOther => Failure(UnexpectedJsonValue)
      case JsonObject(None) => Failure(MissingAccessToken)
      case JsonObject(Some(token)) => Success(token)
  }

  /** The state after `authenticate_app`, and whether it returned or raised. */
  datatype AppAuthStep = AppAuthStep(client: Client, outcome: Outcome<AppAuthError>)

  /** `authenticate_app(scope)`: the app scope list is replaced before the
      exchange; the token is stored and the flag set only when the exchange
      succeeds, and the exchange's exception is what the call raises. A failed
      exchange leaves token and flag as they were, so a failed
      re-authentication keeps the earlier token under the new scopes. */
  function AuthenticateApp(c: Client, scopes: seq<AuthScope>, response: TokenResponse): (step: AppAuthStep)
    ensures step.client.app.scopes == scopes
    ensures step.client.user == c.user && step.client.appId == c.appId && step.client.appSecret == c.appSecret
    ensures step.outcome.Pass? <==> ExchangeSucceeds(response)
    ensures step.outcome.Pass? ==> step.client.app.present && step.client.app.token == response.body.accessToken.value
    ensures step.outcome.Fail? ==> step.client.app.present == c.app.present && step.client.app.token == c.app.token
    ensures step.outcome.Fail? ==> ExchangeToken(response).Failure? && step.outcome.error == ExchangeToken(response).error
    ensures Consistent(c) && !AcceptsNullToken(response) ==> Consistent(step.client)
  {
    var rescoped := c.(app := c.app.(scopes := scopes));
    match ExchangeToken(response)
    case Success(token) => AppAuthStep(rescoped.(app := rescoped.app.(token := token, present := true)), Pass)
    case Failure(e) => AppAuthStep(rescoped, Fail(e))
  }

  /** A null `access_token` is accepted: the app flag is set while the stored
      token is Python's `None`. */
  lemma NullAccessTokenAccepted(c: Client, scopes: seq<AuthScope>)
    ensures var step := AuthenticateApp(c, scopes, TokenResponse(StatusOk, JsonObject(Some(None))));
      step.outcome.Pass? && step.client.app.present && step.client.app.token.None? && !Consistent(step.client)
  {
  }

  /** A call that changes the credential state. */
  datatype Action =
    | SetUser(token: string, userScopes: seq<AuthScope>)
    | AuthApp(appScopes: seq<AuthScope>, response: TokenResponse)

  /** The state after one action, whether it returned or raised. */
  function Apply(c: Client, a: Action): Client
  {
    match a
    case SetUser(token, scopes) => SetUserAuthentication(c, token, scopes)
    case AuthApp(scopes, response) => AuthenticateApp(c, scopes, response).client
  }

  /** The state after a sequence of actions, applied first to last. */
  function Run(c: Client, actions: seq<Action>): Client
    decreases |actions|
  {
    if |actions| == 0 then c else Apply(Run(c, actions[..|actions| - 1]), actions[|actions| - 1])
  }

  /** No exchange in the run is answered with a null token. */
  predicate NoNullTokens(actions: seq<Action>)
  {
    forall i :: 0 <= i < |actions| && actions[i].AuthApp? ==> !AcceptsNullToken(actions[i].response)
  }

  /** Every state reachable from a consistent one through replies that carry
      a token value is consistent. */
  lemma {:induction false} RunConsistent(c: Client, actions: seq<Action>)
    requires Consistent(c) && NoNullTokens(actions)
    ensures Consistent(Run(c, actions))
    decreases |actions|
  {
    if |actions| > 0 {
      var prefix := actions[..|actions| - 1];
      assert forall i :: 0 <= i < |prefix| ==> prefix[i] == actions[i];
      RunConsistent(c, prefix);
    }
  }

  /** The app flag is set after a run exactly when it was set before or some
      token exchange in the run succeeded: no other path sets it, and nothing
      clears it. */
  lemma {:induction false} AppFlagIffSomeExchangeSucceeded(c: Client, actions: seq<Action>)
    ensures Run(c, actions).app.present <==>
      (c.app.present || exists i :: 0 <= i < |actions| && actions[i].AuthApp? && ExchangeSucceeds(actions[i].response))
    decreases |actions|
  {
    if |actions| > 0 {
      var n := |actions| - 1;
      var prefix := actions[..n];
      AppFlagIffSomeExchangeSucceeded(c, prefix);
      assert forall i :: 0 <= i < n ==> prefix[i] == actions[i];
      if actions[n].AuthApp? && ExchangeSucceeds(actions[n].response) {
        assert Run(c, actions).app.present;
      }
    }
  }

  /** The user flag is set after a run exactly when it was set before or the
      run called `set_user_authentication`. */
  lemma {:induction false} UserFlagIffSomeSetUser(c: Client, actions: seq<Action>)
    ensures Run(c, actions).user.present <==>
      (c.user.present || exists i :: 0 <= i < |actions| && actions[i].SetUser?)
    decreases |actions|
  {
    if |actions| > 0 {
      var n := |actions| - 1;
      var prefix := actions[..n];
      UserFlagIffSomeSetUser(c, prefix);
      assert forall i :: 0 <= i < n ==> prefix[i] == actions[i];
    }
  }
}
