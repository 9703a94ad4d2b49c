/** `__generate_header`: the decision which credential a request carries and
    whether the request may be made at all. */
module Headers {
  import opened Results
  import opened Types
  import opened Credentials

  type HeaderMap = map<string, string>

  const ClientIdHeader := "Client-ID"
  const AuthorizationHeader := "Authorization"

  /** `UnauthorizedException` (the credential the mode demands is absent) and
      `MissingScopeException` (it is present but lacks the named scope). */
  datatype AuthError = Unauthorized(side: Side) | MissingScope(side: Side, scope: AuthScope)

  /** How a stored token renders inside an f-string: Python's `None` prints
      as the text "None". */
  function TokenText(token: Option<string>): string
  {
    match token
    case Some(t) => t
    case None => "None"
  }

  /** The value of the Authorization header built from a stored token. */
  function Bearer(token: Option<string>): string
  {
    "Bearer " + TokenText(token)
  }

  /** Every required scope occurs in the granted list. */
  predicate Granted(required: seq<AuthScope>, granted: seq<AuthScope>)
  {
    forall i :: 0 <= i < |required| ==> required[i] in granted
  }

  /** `s` is the first scope of `required`, in list order, absent from `granted`. */
  predicate IsFirstMissing(s: AuthScope, required: seq<AuthScope>, granted: seq<AuthScope>)
  {
    exists i :: 0 <= i < |required| && required[i] == s && s !in granted
      && forall j :: 0 <= j < i ==> required[j] in granted
  }

  /** The position at which the scope loop stops: the first required scope
      not granted, or the length of `required` when all are granted. */
  function FirstMissingIndex(required: seq<AuthScope>, granted: seq<AuthScope>): (k: nat)
    ensures k <= |required|
    ensures forall j :: 0 <= j < k ==> required[j] in granted
    ensures k < |required| ==> required[k] !in granted
  {
    if |required| == 0 then 0
    else if required[0] !in granted then 0
    else 1 + FirstMissingIndex(required[1..], granted)
  }

  /** At most one scope is the first missing one. */
  lemma FirstMissingUnique(s: AuthScope, t: AuthScope, required: seq<AuthScope>, granted: seq<AuthScope>)
    requires IsFirstMissing(s, required, granted) && IsFirstMissing(t, required, granted)
    ensures s == t
  {
  }

  /** The APP and USER branches: presence first, then the scopes in order,
      then the bearer value of that credential. */
  function Authorize(cred: Credential, side: Side, required: seq<AuthScope>): (r: Result<string, AuthError>)
    ensures !cred.present ==> r == Failure(Unauthorized(side))
    ensures cred.present ==> (r.Success? <==> Granted(required, cred.scopes))
    ensures r.Success? ==> r.value == Bearer(cred.token)
    ensures cred.present && r.Failure? ==>
      r.error.MissingScope? && r.error.side == side && IsFirstMissing(r.error.scope, required, cred.scopes)
  {
    if !cred.present then Failure(Unauthorized(side))
    else
      var k := FirstMissingIndex(required, cred.scopes);
      if k < |required| then Failure(MissingScope(side, required[k]))
      else Success(Bearer(cred.token))
  }

  /** `__generate_header(auth_type, required_scope)`. */
  function GenerateHeader(c: Client, mode: AuthType, required: seq<AuthScope>): (r: Result<HeaderMap, AuthError>)
    // every header set names the application
    ensures r.Success? ==> ClientIdHeader in r.value && r.value[ClientIdHeader] == c.appId
    ensures r.Success? ==> r.value.Keys <= {ClientIdHeader, AuthorizationHeader}
    // APP: the app credential must be present, whatever scopes are missing
    ensures mode == App && !c.app.present ==> r == Failure(Unauthorized(AppSide))
    ensures mode == App && c.app.present ==> (r.Success? <==> Granted(required, c.app.scopes))
    ensures mode == App && c.app.present && r.Failure? ==>
      r.error.MissingScope? && r.error.side == AppSide && IsFirstMissing(r.error.scope, required, c.app.scopes)
    ensures mode == App && r.Success? ==>
      AuthorizationHeader in r.value && r.value[AuthorizationHeader] == Bearer(c.app.token)
    // USER: symmetric, with the user credential
    ensures mode == User && !c.user.present ==> r == Failure(Unauthorized(UserSide))
    ensures mode == User && c.user.present ==> (r.Success? <==> Granted(required, c.user.scopes))
    ensures mode == User && c.user.present && r.Failure? ==>
      r.error.MissingScope? && r.error.side == UserSide && IsFirstMissing(r.error.scope, required, c.user.scopes)
    ensures mode == User && r.Success? ==>
      AuthorizationHeader in r.value && r.value[AuthorizationHeader] == Bearer(c.user.token)
    // any other mode: never fails, user token preferred over app token
    ensures mode == NoAuth ==> r.Success?
    ensures mode == NoAuth && r.Success? ==> (AuthorizationHeader in r.value <==> c.user.present || c.app.present)
    ensures mode == NoAuth && r.Success? && c.user.present ==> r.value[AuthorizationHeader] == Bearer(c.user.token)
    ensures mode == NoAuth && r.Success? && !c.user.present && c.app.present ==>
      r.value[AuthorizationHeader] == Bearer(c.app.token)
  {
    var base := map[ClientIdHeader := c.appId];
    match mode
    case App =>
      (match Authorize(c.app, AppSide, required)
       case Success(bearer) => Success(base[AuthorizationHeader := bearer])
       case Failure(e) => Failure(e))
    case User =>
      (match Authorize(c.user, UserSide, required)
       case Success(bearer) => Success(base[AuthorizationHeader := bearer])
       case Failure(e) => Failure(e))
    case NoAuth =>
      if c.user.present || c.app.present then
        Success(base[AuthorizationHeader := Bearer(if c.user.present then c.user.token else c.app.token)])
      else Success(base)
  }

  /** Without an auth mode the required scopes are never consulted. */
  lemma NoAuthIgnoresScopes(c: Client, required: seq<AuthScope>, other: seq<AuthScope>)
    ensures GenerateHeader(c, NoAuth, required) == GenerateHeader(c, NoAuth, other)
  {
  }

  /** The scope named is the first missing one in `required` order: the same
      two missing scopes, listed the other way round, name the other scope. */
  lemma MissingScopeFollowsListOrder(c: Client)
    requires c.user.present && c.user.scopes == []
    ensures GenerateHeader(c, User, [BitsRead, ClipsEdit]) == Failure(MissingScope(UserSide, BitsRead))
    ensures GenerateHeader(c, User, [ClipsEdit, BitsRead]) == Failure(MissingScope(UserSide, ClipsEdit))
  {
  }
}
