/** The endpoint methods `get_users` … `get_banned_users` reduced to what
    happens before a request is sent: each checks its own arguments, then
    asks `__generate_header` for headers with its (auth mode, scopes) pair. */
module Endpoints {
  import opened Results
  import opened Types
  import opened Credentials
  import opened Headers

  /** The exceptions an endpoint raises on bad arguments. */
  datatype ArgError =
    | NeedUserIdsOrLogins
    | DatesNotPaired
    | DatesOutOfOrder
    | FirstOutOfRange
    | CountOutOfRange
    | ManifestIdLength
    | CodeCountOutOfRange
    | CountCalledWithoutArgument
    | NeedGameIdsOrNames
    | TooManyGames

  /** One call of an endpoint method, with the arguments its checks read.
      Dates are timestamps; only their order matters here. */
  datatype Call =
    | GetUsers(userIds: Option<seq<string>>, logins: Option<seq<string>>)
    | GetExtensionAnalytics(first: int, startedAt: Option<int>, endedAt: Option<int>)
    | GetGameAnalytics(first: int, startedAt: Option<int>, endedAt: Option<int>)
    | GetBitsLeaderboard(count: int)
    | GetExtensionTransactions(first: int)
    | CreateClip
    | GetClips
    | CreateEntitlementGrantsUploadUrl(manifestId: string)
    | GetCodeStatus(codes: seq<string>)
    | RedeemCode(codes: seq<string>)
    | GetTopGames(first: int)
    | GetGames(gameIds: Option<seq<string>>, names: Option<seq<string>>)
    | CheckAutomodStatus
    | GetBannedEvents(first: int)
    | GetBannedUsers

  const MaxPageSize := 100
  const MaxManifestIdLength := 64
  const MaxCodesPerCall := 20
  const MaxGameLookups := 100

  /** `first` and `count`: rejected above 100 and below 1. */
  function CheckPageSize(n: int, error: ArgError): (r: Outcome<ArgError>)
    ensures r.Pass? <==> 1 <= n <= MaxPageSize
    ensures r.Fail? ==> r.error == error
  {
    if n > MaxPageSize || n < 1 then Fail(error) else Pass
  }

  /** The analytics date window: either date alone is refused, and a window
      that ends before it starts is refused; equal dates pass. */
  function CheckDateWindow(startedAt: Option<int>, endedAt: Option<int>): (r: Outcome<ArgError>)
    ensures r.Pass? <==>
      (startedAt.None? && endedAt.None?) || (startedAt.Some? && endedAt.Some? && startedAt.value <= endedAt.value)
    ensures r == Fail(DatesNotPaired) <==> startedAt.Some? != endedAt.Some?
    ensures r == Fail(DatesOutOfOrder) <==> startedAt.Some? && endedAt.Some? && startedAt.value > endedAt.value
  {
    if endedAt.Some? || startedAt.Some? then
      if endedAt.None? || startedAt.None? then Fail(DatesNotPaired)
      else if startedAt.value > endedAt.value then Fail(DatesOutOfOrder)
      else Pass
    else Pass
  }

  /** `manifest_id` must be 1 to 64 characters long. */
  function CheckManifestId(manifestId: string): (r: Outcome<ArgError>)
    ensures r.Pass? <==> 1 <= |manifestId| <= MaxManifestIdLength
    ensures r.Fail? ==> r.error == ManifestIdLength
  {
    if |manifestId| < 1 || |manifestId| > MaxManifestIdLength then Fail(ManifestIdLength) else Pass
  }

  /** The number of ids and names a `get_games` call looks up; an omitted
      list counts as empty. */
  function LookupSize(gameIds: Option<seq<string>>, names: Option<seq<string>>): nat
  {
    (if gameIds.Some? then |gameIds.value| else 0) + (if names.Some? then |names.value| else 0)
  }

  /** `get_games`: at least one list given, at most 100 entries in total. */
  function CheckGameLookup(gameIds: Option<seq<string>>, names: Option<seq<string>>): (r: Outcome<ArgError>)
    ensures r.Pass? <==> (gameIds.Some? || names.Some?) && LookupSize(gameIds, names) <= MaxGameLookups
    ensures r == Fail(NeedGameIdsOrNames) <==> gameIds.None? && names.None?
    ensures r == Fail(TooManyGames) <==> (gameIds.Some? || names.Some?) && LookupSize(gameIds, names) > MaxGameLookups
  {
    if gameIds.None? && names.None? then Fail(NeedGameIdsOrNames)
    else if LookupSize(gameIds, names) > MaxGameLookups then Fail(TooManyGames)
    else Pass
  }

  /** The code-count guard of `get_code_status` and `redeem_code` as written:
      `list.count()` is called without its required argument, so the guard
      raises `TypeError` on every list before comparing anything. */
  function CheckCodeCountAsWritten(codes: seq<string>): (r: Outcome<ArgError>)
    ensures r.Fail?
  {
    Fail(CountCalledWithoutArgument)
  }

  /** The guard as its message states it: between 1 and 20 codes. */
  function CheckCodeCount(codes: seq<string>): (r: Outcome<ArgError>)
    ensures r.Pass? <==> 1 <= |codes| <= MaxCodesPerCall
    ensures r.Fail? ==> r.error == CodeCountOutOfRange
  {
    if |codes| > MaxCodesPerCall || |codes| < 1 then Fail(CodeCountOutOfRange) else Pass
  }

  /** The as-written guard refuses even a one-code batch the intended rule
      accepts, so neither endpoint can ever reach its request. */
  lemma CodeCountAsWrittenRefusesValidBatch()
    ensures CheckCodeCount(["ABCDE-12345-FGHIJ"]).Pass?
    ensures CheckCodeCountAsWritten(["ABCDE-12345-FGHIJ"]) == Fail(CountCalledWithoutArgument)
  {
  }

  /** The argument checks each endpoint runs, in the order it runs them. */
  function Validate(call: Call): (r: Outcome<ArgError>)
    ensures call.GetUsers? ==> (r.Pass? <==> call.userIds.Some? || call.logins.Some?)
    ensures call.GetUsers? && r.Fail? ==> r.error == NeedUserIdsOrLogins
    ensures (call.GetExtensionAnalytics? || call.GetGameAnalytics?) ==>
      && (r.Pass? <==> CheckDateWindow(call.startedAt, call.endedAt).Pass? && 1 <= call.first <= MaxPageSize)
      && (CheckDateWindow(call.startedAt, call.endedAt).Fail? ==> r == CheckDateWindow(call.startedAt, call.endedAt))
      && (r == Fail(FirstOutOfRange) ==> CheckDateWindow(call.startedAt, call.endedAt).Pass?)
      && (CheckDateWindow(call.startedAt, call.endedAt).Pass? && !(1 <= call.first <= MaxPageSize) ==>
            r == Fail(FirstOutOfRange))
    ensures call.GetBitsLeaderboard? ==> (r.Pass? <==> 1 <= call.count <= MaxPageSize)
    ensures call.GetBitsLeaderboard? && r.Fail? ==> r.error == CountOutOfRange
    ensures (call.GetExtensionTransactions? || call.GetTopGames? || call.GetBannedEvents?) ==>
      && (r.Pass? <==> 1 <= call.first <= MaxPageSize)
      && (r.Fail? ==> r.error == FirstOutOfRange)
    ensures call.CreateEntitlementGrantsUploadUrl? ==>
      && (r.Pass? <==> 1 <= |call.manifestId| <= MaxManifestIdLength)
      && (r.Fail? ==> r.error == ManifestIdLength)
    ensures (call.GetCodeStatus? || call.RedeemCode?) ==>
      && (r.Pass? <==> 1 <= |call.codes| <= MaxCodesPerCall)
      && (r.Fail? ==> r.error == CodeCountOutOfRange)
    ensures call.GetGames? ==>
      && (r.Pass? <==> (call.gameIds.Some? || call.names.Some?) && LookupSize(call.gameIds, call.names) <= MaxGameLookups)
      && (r == Fail(NeedGameIdsOrNames) <==> call.gameIds.None? && call.names.None?)
      && (r == Fail(TooManyGames) <==>
            (call.gameIds.Some? || call.names.Some?) && LookupSize(call.gameIds, call.names) > MaxGameLookups)
    ensures (call.CreateClip? || call.GetClips? || call.CheckAutomodStatus? || call.GetBannedUsers?) ==> r.Pass?
  {
    match call
    case GetUsers(userIds, logins) =>
      if userIds.None? && logins.None? then Fail(NeedUserIdsOrLogins) else Pass
    case GetExtensionAnalytics(first, startedAt, endedAt) =>
      (match CheckDateWindow(startedAt, endedAt)
       case Fail(e) => Fail(e)
       case Pass => CheckPageSize(first, FirstOutOfRange))
    case GetGameAnalytics(first, startedAt, endedAt) =>
      (match CheckDateWindow(startedAt, endedAt)
       case Fail(e) => Fail(e)
       case Pass => CheckPageSize(first, FirstOutOfRange))
    case GetBitsLeaderboard(count) => CheckPageSize(count, CountOutOfRange)
    case GetExtensionTransactions(first) => CheckPageSize(first, FirstOutOfRange)
    case CreateClip => Pass
    case GetClips => Pass
    case CreateEntitlementGrantsUploadUrl(manifestId) => CheckManifestId(manifestId)
    case GetCodeStatus(codes) => CheckCodeCount(codes)
    case RedeemCode(codes) => CheckCodeCount(codes)
    case GetTopGames(first) => CheckPageSize(first, FirstOutOfRange)
    case GetGames(gameIds, names) => CheckGameLookup(gameIds, names)
    case CheckAutomodStatus => Pass
    case GetBannedEvents(first) => CheckPageSize(first, FirstOutOfRange)
    case GetBannedUsers => Pass
  }

  datatype Verb = Get | Post

  /** One row of the endpoint table: HTTP verb, path below the API base URL,
      the (auth mode, required scopes) pair handed to `__generate_header`,
      and the response fields handed to the date and enum converters. */
  datatype Route = Route(verb: Verb, path: string, mode: AuthType, scopes: seq<AuthScope>,
                         dateFields: seq<string>, enumFields: seq<string>)

  /** The endpoint table. No endpoint pairs "no auth mode" with required
      scopes, and every endpoint needs at most one scope. */
  function RouteOf(call: Call): (route: Route)
    ensures route.mode == NoAuth ==> route.scopes == []
    ensures |route.scopes| <= 1
  {
    match call
    case GetUsers(_, _) => Route(Get, "users", NoAuth, [], [], [])
    case GetExtensionAnalytics(_, _, _) =>
      Route(Get, "analytics/extensions", User, [AnalyticsReadExtension], ["started_at", "ended_at"], [])
    case GetGameAnalytics(_, _, _) =>
      Route(Get, "analytics/games", User, [AnalyticsReadGames], ["ended_at", "started_at"], [])
    case GetBitsLeaderboard(_) => Route(Get, "bits/leaderboard", User, [BitsRead], ["ended_at", "started_at"], [])
    case GetExtensionTransactions(_) => Route(Get, "extensions/transactions", App, [], ["timestamp"], [])
    case CreateClip => Route(Post, "clips", User, [ClipsEdit], [], [])
    case GetClips => Route(Get, "clips", NoAuth, [], ["created_at"], [])
    case CreateEntitlementGrantsUploadUrl(_) => Route(Post, "entitlements/upload", App, [], [], [])
    case GetCodeStatus(_) => Route(Get, "entitlements/codes", App, [], [], ["status"])
    case RedeemCode(_) => Route(Post, "entitlements/code", App, [], [], ["status"])
    case GetTopGames(_) => Route(Get, "games/top", NoAuth, [], [], [])
    case GetGames(_, _) => Route(Get, "games", NoAuth, [], [], [])
    case CheckAutomodStatus => Route(Post, "moderation/enforcements/status", User, [ModerationRead], [], [])
    case GetBannedEvents(_) =>
      Route(Get, "moderation/banned/events", User, [ModerationRead], ["event_timestamp", "expires_at"], ["event_type"])
    case GetBannedUsers => Route(Get, "moderation/banned", User, [ModerationRead], ["expires_at"], [])
  }

  /** A request ready for the transport. */
  datatype Prepared = Prepared(verb: Verb, path: string, headers: HeaderMap)

  /** Why no request was sent. */
  datatype PreflightError = InvalidArgument(arg: ArgError) | NotAuthorized(auth: AuthError)

  /** Everything an endpoint method does before the transport is called. */
  function Preflight(c: Client, call: Call): (r: Result<Prepared, PreflightError>)
    // argument errors win, whatever the credentials
    ensures Validate(call).Fail? ==> r == Failure(InvalidArgument(Validate(call).error))
    // valid arguments: the request leaves exactly when the header builder
    // agrees, with its headers, and its refusal is passed on unchanged
    ensures Validate(call).Pass? ==>
      var h := GenerateHeader(c, RouteOf(call).mode, RouteOf(call).scopes);
      && (r.Success? <==> h.Success?)
      && (h.Success? ==> r.value.headers == h.value)
      && (h.Failure? ==> r == Failure(NotAuthorized(h.error)))
    ensures r.Failure? && r.error.InvalidArgument? ==> Validate(call).Fail?
    // a request leaves only with headers for the table's verb and path
    ensures r.Success? ==>
      && Validate(call).Pass?
      && r.value.verb == RouteOf(call).verb && r.value.path == RouteOf(call).path
      && ClientIdHeader in r.value.headers && r.value.headers[ClientIdHeader] == c.appId
    // and never on behalf of a credential lacking a required scope
    ensures r.Success? && RouteOf(call).mode == User ==> c.user.present && Granted(RouteOf(call).scopes, c.user.scopes)
    ensures r.Success? && RouteOf(call).mode == App ==> c.app.present && Granted(RouteOf(call).scopes, c.app.scopes)
  {
    match Validate(call)
    case Fail(e) => Failure(InvalidArgument(e))
    case Pass =>
      var route := RouteOf(call);
      match GenerateHeader(c, route.mode, route.scopes)
      case Failure(e) => Failure(NotAuthorized(e))
      case Success(headers) => Success(Prepared(route.verb, route.path, headers))
  }

  /** Endpoints that need no credential never pair that with scopes, so they
      fail only on their arguments. */
  lemma NoAuthEndpointsFailOnlyOnArguments(c: Client, call: Call)
    requires RouteOf(call).mode == NoAuth
    ensures RouteOf(call).scopes == []
    ensures Preflight(c, call).Failure? ==> Preflight(c, call).error.InvalidArgument?
  {
  }

  /** Whether a call's arguments are refused does not depend on the client. */
  lemma ArgumentErrorsIgnoreCredentials(c: Client, d: Client, call: Call)
    requires Preflight(c, call).Failure? && Preflight(c, call).error.InvalidArgument?
    ensures Preflight(d, call) == Preflight(c, call)
  {
  }

  /** A leaderboard of 150 entries is refused before any header is built. */
  lemma LeaderboardCountTooLarge(c: Client)
    ensures Preflight(c, GetBitsLeaderboard(150)) == Failure(InvalidArgument(CountOutOfRange))
  {
  }

  /** A window with only its end given is refused, with any credentials. */
  lemma UnpairedDateRefused(c: Client, first: int, endedAt: int)
    ensures Preflight(c, GetGameAnalytics(first, None, Some(endedAt))) == Failure(InvalidArgument(DatesNotPaired))
  {
  }

  /** A USER endpoint called with only app authentication is unauthorized. */
  lemma UserEndpointWithAppCredentialOnly(c: Client, call: Call)
    requires c.app.present && !c.user.present
    requires RouteOf(call).mode == User && Validate(call).Pass?
    ensures Preflight(c, call) == Failure(NotAuthorized(Unauthorized(UserSide)))
  {
  }
}
