# Authorization and pre-flight core of the pyTwitchAPI `Twitch` client

This project models the part of the `Twitch` client (twitchAPI/twitch.py) that decides,
before any HTTP request is sent, whether the request may be made and with which
credential. It proves the resulting properties in Dafny. It covers:

- **Credential state.** A client holds two independent credentials, app and user. Each has a
  stored token, the granted scopes in caller order and a presence flag.
  `set_user_authentication` replaces the user credential outright. `authenticate_app` first
  replaces the app scope list, then runs the token exchange. It stores the token and sets the
  app flag only when the exchange answers 200 with a JSON object that holds an `access_token`.
  The exchange's reply is a parameter; the POST itself is not modelled.
- **Header builder** (`__generate_header`). The APP and USER modes check that the credential
  is present before they check any scope. They then name the first required scope, in list
  order, that was not granted. Otherwise they attach `Bearer <token>` for that credential.
  Any other mode (`AuthType.NONE`) never fails and checks no scope. It attaches the user
  token if one is present, else the app token if one is present, else no Authorization
  header. Every header set carries `Client-ID`.
- **Endpoint pre-flight** for `get_users` … `get_banned_users`:
  - each endpoint's argument checks, in the order the endpoint runs them;
  - a declarative table with each endpoint's verb, path, (auth mode, scopes) pair, and the
    response fields it passes to the date and enum converters;
  - `Preflight`, which runs the checks, then the header builder.

Three behaviours of the code are easy to miss:

- **The app scopes change even when authentication fails.** The scope list is replaced before the token
  exchange. A failed exchange keeps the earlier token and flag. So after a failed
  re-authentication, the old token is checked against the new scope list
  (`Session.FailedReauthenticationKeepsOldToken`).
- **No auth mode still attaches a token.** Without an auth mode, the code attaches any
  credential that is present. It never fails, even when scopes are listed.
- **A null token is accepted.** A 200 reply whose `access_token` is JSON null raises nothing.
  `None` is stored as the app token and the app flag is set, so APP requests then carry
  `Bearer None` (`Session.NullAccessTokenSendsBearerNone`).

Modules: `Results` (Option/Result/Outcome), `Types` (scopes, auth modes), `Credentials`,
`Headers`, `Session` (lemmas relating credential changes to header decisions) and `Endpoints`.

## Model

| member | source | states |
|---|---|---|
| Credentials.SetUserAuthentication | twitchAPI/twitch.py:94-97 | sets the user token, the user scopes and the user flag; cannot fail; leaves the app credential and the ids unchanged; preserves "present implies a token was stored" |
| Credentials.ExchangeToken | twitchAPI/twitch.py:79-87 | a token value is taken exactly when the status is 200, the body is a JSON object and it has `access_token`, null included; a non-200 status fails with that status whatever the body; a non-JSON body, a non-object JSON value and a missing key fail with their own errors |
| Credentials.AuthenticateApp | twitchAPI/twitch.py:89-92 | the app scopes are replaced even when the exchange fails; the call succeeds exactly when the exchange does, and only then stores the token and sets the flag; on failure flag and token stay as they were and the error raised is the exchange's own; the user credential is untouched |
| Credentials.NullAccessTokenAccepted | twitchAPI/twitch.py:82-92 | a 200 reply whose `access_token` is null succeeds, sets the app flag and stores no token, leaving an inconsistent state |
| Credentials.RunConsistent | twitchAPI/twitch.py:89-97 | any sequence of the two credential operations in which no token reply carries a null `access_token` keeps every present credential paired with a stored token |
| Credentials.AppFlagIffSomeExchangeSucceeded | twitchAPI/twitch.py:89-92 | after any sequence of operations the app flag is set exactly when it was set before or some exchange in the sequence succeeded (nothing else sets it, nothing clears it) |
| Credentials.UserFlagIffSomeSetUser | twitchAPI/twitch.py:94-97 | after any sequence of operations the user flag is set exactly when it was set before or `set_user_authentication` was called |
| Headers.FirstMissingIndex | twitchAPI/twitch.py:34-36 | the scope loop stops at the first required scope absent from the granted list, every earlier one being granted, or runs to the end when all are granted |
| Headers.Authorize | twitchAPI/twitch.py:31-44 | absent credential gives Unauthorized whatever the scopes; present credential succeeds exactly when every required scope is granted, with `Bearer <token>`; otherwise MissingScope names the first missing scope in list order |
| Headers.GenerateHeader | twitchAPI/twitch.py:29-49 | Client-ID is always the app id; APP/USER: Unauthorized takes precedence over MissingScope, MissingScope names the first missing scope, success carries that credential's bearer token; other modes never fail, attach an Authorization header exactly when some credential is present, preferring the user token |
| Headers.NoAuthIgnoresScopes | twitchAPI/twitch.py:45-48 | without an auth mode the decision does not depend on the required scopes |
| Headers.MissingScopeFollowsListOrder | twitchAPI/twitch.py:41-43 | the same two missing scopes listed in opposite orders name opposite scopes |
| Session.SetUserEnablesUserRequests | twitchAPI/twitch.py:94-97 | after `set_user_authentication(token, scopes)` a USER request succeeds exactly when its scopes are among `scopes`, carries `Bearer token`, and otherwise names the first missing scope |
| Session.SetUserLeavesAppRequests | twitchAPI/twitch.py:94-97 | `set_user_authentication` changes no APP header decision |
| Session.SetUserWinsWithoutMode | twitchAPI/twitch.py:45-48 | once a user token is set, a request without an auth mode carries it even if an app token is present |
| Session.AuthenticateAppEnablesAppRequests | twitchAPI/twitch.py:89-92 | after a successful app authentication an APP request succeeds exactly when its scopes are among the requested ones and carries the new token |
| Session.NullAccessTokenSendsBearerNone | twitchAPI/twitch.py:37 | after a reply with a null `access_token`, an APP request whose scopes were asked for is sent with the header `Bearer None` |
| Session.RejectedExchangeLeavesAppUnauthorized | twitchAPI/twitch.py:79-80 | a non-200 exchange on a client without app authentication raises with that status and APP requests stay Unauthorized |
| Session.FailedReauthenticationKeepsOldToken | twitchAPI/twitch.py:89-92 | after a failed re-authentication APP requests are checked against the new scopes but carry the old token |
| Session.HeadersCarryStoredTokens | twitchAPI/twitch.py:37-48 | on a consistent state every Authorization header is `Bearer` plus a token actually stored for a present credential |
| Session.ReachableHeadersCarryStoredTokens | twitchAPI/twitch.py:15-27 | the same holds on every state reachable from a fresh client through the public credential operations, when no token reply carries a null `access_token` |
| Session.FreshClientHeaders | twitchAPI/twitch.py:15-27 | a fresh client sends only Client-ID without an auth mode and refuses APP and USER requests as Unauthorized |
| Endpoints.CheckPageSize | twitchAPI/twitch.py:138-139 | `first`/`count` pass exactly when in [1, 100] (both bounds accepted) and otherwise fail with the endpoint's error |
| Endpoints.CheckDateWindow | twitchAPI/twitch.py:132-137 | no dates or both dates in order pass (equal dates pass); exactly one date fails as unpaired; both dates with start after end fail as out of order |
| Endpoints.CheckManifestId | twitchAPI/twitch.py:255-256 | `manifest_id` passes exactly when its length is in [1, 64] |
| Endpoints.CheckGameLookup | twitchAPI/twitch.py:311-314 | passes exactly when at least one list is given and the lists hold at most 100 entries together; both omitted is the "need ids or names" error, and given lists with more than 100 entries together are exactly the "too many" error |
| Endpoints.CheckCodeCountAsWritten | twitchAPI/twitch.py:268-269 | the guard as written refuses every code list |
| Endpoints.CheckCodeCount | twitchAPI/twitch.py:282-283 | the intended guard passes exactly 1 to 20 codes |
| Endpoints.CodeCountAsWrittenRefusesValidBatch | twitchAPI/twitch.py:265-269 | a one-code batch passes the intended guard and is refused by the guard as written |
| Endpoints.Validate | twitchAPI/twitch.py:112-349 | per endpoint, which argument combinations are refused and with which error: `get_users` needs ids or logins, the analytics date rules come before the `first` range (a date error is reported even when `first` is also out of range), the page-size, length, lookup and code-count ranges each with its own error, and no check for the other endpoints |
| Endpoints.RouteOf | twitchAPI/twitch.py:121-357 | no endpoint combines "no auth mode" with required scopes, and none requires more than one scope |
| Endpoints.Preflight | twitchAPI/twitch.py:51-68 | argument errors win over credential errors; a call whose arguments pass is sent exactly when the header builder succeeds for the table's mode and scopes, with exactly those headers and the table's verb and path, and otherwise fails with the builder's error unchanged; so never for a USER/APP endpoint whose credential is absent or lacks a required scope |
| Endpoints.NoAuthEndpointsFailOnlyOnArguments | twitchAPI/twitch.py:45-49 | endpoints without an auth mode can only be refused on their arguments |
| Endpoints.ArgumentErrorsIgnoreCredentials | twitchAPI/twitch.py:138-151 | an argument refusal is the same whatever the client's credentials |
| Endpoints.LeaderboardCountTooLarge | twitchAPI/twitch.py:189-190 | a bits leaderboard of 150 entries is refused as out of range before any header is built |
| Endpoints.UnpairedDateRefused | twitchAPI/twitch.py:162-164 | game analytics with only an end date is refused as unpaired, with any credentials |
| Endpoints.UserEndpointWithAppCredentialOnly | twitchAPI/twitch.py:38-40 | a USER endpoint with valid arguments, called with only app authentication, is Unauthorized |

## Left out

- Credentials.RunConsistent: does not hold for runs in which a token reply carries a null `access_token`; that case is exhibited by `Credentials.NullAccessTokenAccepted` instead. `set_user_authentication` is modelled with a string token, its type hint, although Python would also store `None` passed by a caller.
- Session.ReachableHeadersCarryStoredTokens: stated only for runs without a null `access_token` reply; with one, APP requests carry `Bearer None` (`Session.NullAccessTokenSendsBearerNone`). A `None` passed to `set_user_authentication` is not modelled, as above.
- Endpoints.Validate: uses the corrected 1 to 20 code-count guard for `get_code_status` and `redeem_code`. As written, those endpoints raise `TypeError` on every call (`Endpoints.CheckCodeCountAsWritten`; see Findings).
- Endpoints.Preflight: inherits the corrected code-count guard from `Endpoints.Validate`. As written, `get_code_status` and `redeem_code` never reach the header builder.
- Default argument values (`first=20`, `count=10`, `period=TimePeriod.ALL` and the `None` defaults) are not modelled. Every `Call` constructor takes its checked arguments explicitly.
- A non-null `access_token` that is not a JSON string is represented by the text it renders as in the f-string.
- HTTP transport: the `requests.get`/`requests.post` calls, network errors raised by them, and the `.json()` decoding of endpoint responses are not modelled. The token exchange's reply enters as a `TokenResponse` value.
- twitchAPI/helper.py is not part of this model. `build_url` and `build_scope` are not modelled, so the query parameters and the scope string of the token request are not built. `make_fields_datetime` and `fields_to_enum` are not modelled either; the endpoint table only records which field names each endpoint passes to them.
- Query-parameter mappings are not modelled because they go only to `build_url`. This includes the lower-cased `has_delay` of `create_clip` and the integer `first` used as a dictionary key at twitchAPI/twitch.py:213.
- Pass-through arguments such as broadcaster ids, cursors, report types, periods and message texts are not modelled. No check reads them; they reach only the URL or the body.
- Dates are integer timestamps. `isoformat` serialisation and date parsing are not modelled.
- Exception message texts are not modelled. Errors are constructors; MissingScope carries the scope the message names.
- `get_webhook` and the webhook subsystem are not part of this model.
- `get_webhook_subscriptions` is not modelled. It calls `__api_get_request` without `required_scope`, so it raises `TypeError` before any header is built (twitchAPI/twitch.py:109).
- twitchAPI/oauth.py is not part of this model. It is a callback web server, a browser launch and raw POSTs.
- twitchAPI/types.py is not part of this model. `AuthScope` lists only the scopes the endpoints require, plus a catch-all constructor for the rest.
- Python list aliasing is not modelled: the caller's scope list object is stored as is, and later mutation by the caller would show through.

## Findings

| source | as written | input that shows it | evidently intended | confidence | as-written member | corrected member |
|---|---|---|---|---|---|---|
| twitchAPI/twitch.py:268-269 | `code.count()` (here and at line 282) is called without the argument `list.count` requires, so `get_code_status` and `redeem_code` raise `TypeError` on every call | `code = ["ABCDE-12345-FGHIJ"]` | refuse fewer than 1 or more than 20 codes, as the message says (`len(code)`) | high; not executed | Endpoints.CheckCodeCountAsWritten | Endpoints.CheckCodeCount |

`Endpoints.Validate` and `Endpoints.Preflight` use the corrected guard.
`Endpoints.CodeCountAsWrittenRefusesValidBatch` exhibits the discrepancy.
