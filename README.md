# Google OAuth2 adapter of hypergraph-auth, in Dafny

This project models the Google strategy of an authentication gateway. The
gateway verifies a user through Google's OAuth2 authorization-code flow.
It then hands the client a single-use intermediary code, and the client
redeems that code for the application's own tokens.

The model covers two classes and one factory:

- **`GoogleAuthService`**. It builds the authorization URL (section 4.1.1 of
  RFC 6749, plus Google's `access_type` and `prompt` parameters). It validates
  the token-endpoint request and assembles its form body. That covers the
  authorization-code grant (section 4.1.3 of RFC 6749) and the refresh grant
  (section 6 of RFC 6749). It maps Google's userinfo reply to `UserMetadata`.
  It runs two call sequences against the `AuthService` collaborator:
  "provider code → `createUser` → `issueAuthCode`" and
  "`findByAuthCode` → `clearAuthCode` → `issueTokens`".
- **`GoogleAuthController`**. It checks `next`/`state` against the
  comma-separated allow-list `redirectUrl`. It builds the callback URL and the
  post-login redirect `…?code=<c>&provider=google`. It validates the body of
  `POST /auth/google/token`.
- **`createGoogleAuthStrategy`**. It tags a configuration as the Google
  strategy.

Modules, one per source file or runtime concept:

| file | module | models |
|---|---|---|
| js.dfy | `Js` | JavaScript truthiness, `undefined` in templates, `??`, `split`/`join`, `URLSearchParams` as an ordered list of pairs |
| errors.dfy | `Errors` | Nest `HttpException`s (kind and message), plain `Error`, runtime `TypeError`; `Result` |
| auth_config.dfy | `AuthConfig` | the `AuthStrategyType` enum and the `AuthStrategy` union |
| google_config.dfy | `GoogleConfig` | `GoogleAuthConfig` and `createGoogleAuthStrategy` |
| google_types.dfy | `GoogleTypes` | `GetSessionRequest`, `GoogleAuthSession`, `GoogleUserInfo`, `UserMetadata`, fetch replies |
| auth_collaborator.dfy | `AuthCollaborator` | `AuthService` as an abstract collaborator: a log of calls with arbitrary answers |
| express.dfy | `Express` | the `Response` object: status, redirects and JSON bodies sent |
| google_service.dfy | `GoogleService` | `GoogleAuthService` |
| google_controller.dfy | `GoogleController` | `GoogleAuthController` |

How the model treats the parts it does not own:

- **Network.** The token endpoint and the userinfo endpoint are function
  parameters, `post(url, form)` and `get(url, authorization)`. Each returns
  either an ok reply with its parsed JSON (possibly `null`) or a failed reply
  with its status and text.
- **Encoding.** `URLSearchParams.prototype.toString` is a parameter `encode`.
  Only the ordered list of parameters is specified.
- **Collaborator.** `AuthService` appends each call (arguments and answer) to
  `log`. Its answers are chosen arbitrarily, so the flows' contracts are
  stated in terms of whatever it answered.

Run-time edge cases that the model follows:

- **Absent `next`.** `signin` sends `state=undefined`, because
  `URLSearchParams` turns `undefined` into the string `"undefined"`.
- **Absent `Host` header.** The callback URL then contains `undefined` as its
  host.
- **Empty `state` on the callback.** It passes validation, and `??` keeps it,
  so the redirect is `?code=…&provider=google` with an empty base.
- **Absent `state` on the callback.** The redirect falls back to the whole
  `redirectUrl` string, which may itself be a comma-separated list.
- **`scope` as a single query value.** A single `?scope=x` arrives as a string.
  `scopes.join` then throws a `TypeError`, but only after the credential
  check.
- **`identifier` may be absent.** `identifier` is copied from the optional
  `email`, so it is `Option<string>` here.

Error kinds and parameters worth knowing:

- **Missing credentials.** `signin` throws Unauthorized; `getSession` throws
  BadRequest with a different message.
- **Unknown intermediary code.** `signinWithCode` throws BadRequest "Invalid
  authentication code. Please try again.".
- **Callback parameter.** The callback reads its allow-listed target from
  `state`. The test at src/google/google-auth.test.ts:127 passes `next`, which
  the handler ignores.

## Model

| member | source | states |
|---|---|---|
| Js.Truthy | src/google/google-auth.service.ts:20 | a possibly-undefined string is falsy exactly when it is `undefined` or `""`, as `!x` tests it here and at service.ts:50, 53, 55, 58, 95, 99 and controller.ts:24, 49 |
| Js.Split | src/google/google-auth.controller.ts:25 | `split(',')` never yields an empty list, no piece contains the separator, and joining the pieces with the separator gives back the input |
| Js.JoinEnds | src/google/google-auth.service.ts:27 | `join` of a non-empty list starts with its first part, then the separator when more follow, and ends with its last part |
| Js.Interpolate | src/google/google-auth.service.ts:30 | a defined string is kept as it is; only `undefined` and the string `"undefined"` give the same text |
| Js.Coalesce | src/google/google-auth.controller.ts:43 | `??` replaces only `undefined`: the result is the fallback exactly when the value is absent or equals it, and `""` is kept |
| Js.DecimalString | src/google/google-auth.service.ts:44 | `${response.status}` (also line 90) renders at least one decimal digit, only digits, a leading `0` only for zero, one digit exactly below ten, and digits whose decimal value is the status itself |
| Js.DecimalStringExample | src/google/google-auth.service.ts:44 | status 401 renders as `"401"` |
| Js.SplitJoin | src/google/google-auth.controller.ts:25 | splitting a comma-join of separator-free entries gives back exactly those entries |
| AuthConfig.TagsDistinct | src/auth.config.ts:9-13 | the tags `'local'`, `'Supabase'`, `'Google'` are pairwise distinct, so dispatch by tag is unambiguous |
| GoogleConfig.CreateGoogleAuthStrategy | src/google/google-auth.config.ts:10-14 | the result is always the Google strategy, tagged `'Google'`, with clientId, clientSecret and redirectUrl copied unchanged |
| GoogleConfig.HasCredentials | src/google/google-auth.service.ts:20 | the credential test (also line 50) fails exactly when clientId or clientSecret is empty |
| GoogleConfig.CreateGoogleAuthStrategyInjective | src/google/google-auth.config.ts:13 | the factory loses no field: equal strategies come from equal configurations |
| GoogleService.ProviderIsNoStrategyTag | src/google/google-auth.service.ts:110 | the provider name `'google'` is none of the strategy tags, in particular not `'Google'` |
| GoogleService.ScopeList | src/google/google-auth.service.ts:16 | the default `['openid', 'profile', 'email']` applies only when the scopes are left out; a given array is used as it is |
| GoogleService.AuthorizationParams | src/google/google-auth.service.ts:23-31 | the authorization query holds seven parameters, each key once |
| GoogleService.Signin | src/google/google-auth.service.ts:15-33 | fails with Unauthorized "Missing clientId or clientSecret" exactly when a credential is empty, before anything else; otherwise the URL is the authorization endpoint, `?`, then the encoded parameters |
| GoogleService.AuthorizationParamsContents | src/google/google-auth.service.ts:23-31 | exactly seven parameters, in order and each once: client_id, redirect_uri, response_type=code, scope (the scopes joined by one space), access_type=offline, prompt=consent, state=next |
| GoogleService.ScopeRoundTrip | src/google/google-auth.service.ts:27 | the space-joined `scope` value splits back into the exact scope list |
| GoogleService.SigninDefaults | src/google/google-auth.service.ts:16-30 | with the scopes left out, `scope` is `openid profile email`; `state` is `next`, or `undefined` when next is absent |
| GoogleService.ReadSessionFields | src/google/google-auth.service.ts:49 | each field is the request property of that exact name (`undefined` when absent): `code`, `refreshToken`, `type` and `redirect_uri`, never `redirectUri` |
| GoogleService.ValidateSession | src/google/google-auth.service.ts:50-60 | passes exactly when credentials are set, an authorization_code request has a code and a redirect_uri, and a refresh_token request has a refresh token; each failure is a BadRequest, with messages checked in source order; any other type passes |
| GoogleService.FormBody | src/google/google-auth.service.ts:66-83 | the form starts with access_type=offline, client_id, client_secret, and no key occurs twice |
| GoogleService.FormBodyContents | src/google/google-auth.service.ts:66-83 | the form always starts with access_type=offline, client_id, client_secret; refresh adds exactly refresh_token and grant_type=refresh_token, so `get` finds no code or redirect_uri; authorization_code adds exactly code, grant_type=authorization_code and redirect_uri, so `get` finds no refresh_token; keys are distinct; after validation the values are the request's |
| GoogleService.GetSession | src/google/google-auth.service.ts:48-92 | a validation failure is thrown before any request; otherwise the form body is posted to the token endpoint; an ok reply yields its JSON, a failed one a plain Error "Failed to refresh access token: <status> <text>" |
| GoogleService.GetUserInfo | src/google/google-auth.service.ts:36-46 | the userinfo endpoint is fetched with `Bearer <token>`; an ok reply yields its JSON, a failed one a plain Error with the status and text |
| GoogleService.ToUserMetadata | src/google/google-auth.service.ts:110-118 | provider `google`, providerId = sub, identifier = email = the userinfo email, name and pictureUrl copied |
| GoogleService.ProviderExchange | src/google/google-auth.service.ts:98-118 | getSession's errors propagate unchanged; a missing session or a missing or empty access_token is Unauthorized "Failed to exchange authorization code for session…"; otherwise the userinfo is fetched with that token, its errors propagate, a missing user is the same Unauthorized, and success is exactly the metadata mapped from that userinfo |
| GoogleService.AsWrittenRequest | src/google/google-auth.service.ts:98 | the request as written has exactly the properties code, type=authorization_code and `redirectUri`, so no `redirect_uri` |
| GoogleService.CorrectedRequest | src/google/google-auth.service.ts:49 | the corrected request is the as-written one with `redirectUri` renamed to `redirect_uri` |
| GoogleService.TypedAuthorizationRequestRejected | src/google/google-auth.service.ts:49-98 | a typed authorization-code request carries no `redirect_uri`, so with credentials and a code getSession always rejects it with "Redirect uri is required…" |
| GoogleService.AsWrittenExchangeAlwaysFails | src/google/google-auth.service.ts:94-98 | the exchange as written never succeeds: it fails with the not-configured error, or with the missing-redirect-uri error |
| GoogleService.CorrectedRequestAccepted | src/google/google-auth.service.ts:52-83 | a request keyed `redirect_uri` passes validation and posts code, grant_type=authorization_code and the redirect URI |
| GoogleService.ExchangeScenario | src/google/google-auth.service.ts:98-118 | token reply `{access_token:"t1"}` and userinfo `{sub:"u1", email:"a@b.com"}` give metadata `{provider:"google", providerId:"u1", identifier:"a@b.com"}` |
| GoogleService.GoogleAuthService.CompleteExchange | src/google/google-auth.service.ts:98-124 | if the provider exchange fails, that error is returned and the collaborator is not called; otherwise `createUser(metadata)` comes strictly before `issueAuthCode(identifier, 'google')` and `{code: issued, provider: 'google'}` is returned |
| GoogleService.GoogleAuthService.ExchangeCodeForSession | src/google/google-auth.service.ts:94-125 | as written: a missing or empty code is Unauthorized "Authorization code is missing…"; every other input fails in getSession; the collaborator is never called |
| GoogleService.GoogleAuthService.ExchangeCodeForSessionFixed | src/google/google-auth.service.ts:94-125 | corrected request key: a missing code is Unauthorized with no call; otherwise the provider exchange decides, and on success the log gains exactly createUser then issueAuthCode, and the issued code is returned |
| GoogleService.GoogleAuthService.SigninWithCode | src/google/google-auth.service.ts:127-135 | findByAuthCode(code, provider) first; if nothing is found, BadRequest "Invalid authentication code. Please try again." with no other call; otherwise clearAuthCode(id) strictly before issueTokens(id), returning its accessToken and authInfo.userId |
| GoogleController.ValidateNextUrl | src/google/google-auth.controller.ts:23-28 | passes exactly when next is absent, empty, or equal to one of the comma-split entries of redirectUrl; otherwise BadRequest "Invalid redirect URL" |
| GoogleController.AllowListAcceptsExactlyEntries | src/google/google-auth.controller.ts:25 | for an allow-list written as comma-joined entries, a non-empty next passes exactly when it is one of the entries |
| GoogleController.AllowListNotTrimmed | src/google/google-auth.controller.ts:25 | entries are not trimmed: with `http://a, http://b` configured, `http://b` is refused |
| GoogleController.GetRedirectUrl | src/google/google-auth.controller.ts:30-34 | the URL splits back into the protocol, `://`, the host (`undefined` when absent) and `/auth/google/callback` |
| GoogleController.PostLoginUrl | src/google/google-auth.controller.ts:43 | the redirect splits back into `next ?? redirectUrl`, `?code=`, the code and `&provider=google` |
| GoogleController.PostLoginTargetAllowed | src/google/google-auth.controller.ts:43 | after validation the redirect base is an allow-list entry, the whole redirectUrl (state absent) or empty (state `""`, kept by `??`), followed by `?code=<c>&provider=google` |
| GoogleController.SigninUrlNeverEmpty | src/google/google-auth.controller.ts:62-65 | a successful signin URL starts with the authorization endpoint, so the InternalServerError branch is never taken |
| GoogleController.GoogleAuthController.RedirectWithCode | src/google/google-auth.controller.ts:42-43 | a failed exchange is thrown with nothing sent and the status kept; a successful one answers 302 with one redirect to the post-login URL carrying the issued code |
| GoogleController.GoogleAuthController.HandleCallbackAsWritten | src/google/google-auth.controller.ts:38-44 | as written the handler never succeeds: an invalid state is BadRequest "Invalid redirect URL", a falsy code Unauthorized, missing credentials the not-configured BadRequest, and otherwise BadRequest "Redirect uri is required…"; nothing is sent, the status is kept and the collaborator is not called |
| GoogleController.GoogleAuthController.HandleCallback | src/google/google-auth.controller.ts:38-44 | with the corrected exchange: state is validated first, and an invalid one fails with no collaborator call; a falsy code is Unauthorized "Authorization code is missing…" with no call; otherwise a failed provider exchange returns its error with the log unchanged, and a successful one appends exactly createUser(metadata) then issueAuthCode(identifier, "google") and answers 302 with a redirect to `<state ?? redirectUrl>?code=<that issued code>&provider=google`; on failure nothing is sent and the status is kept |
| GoogleController.GoogleAuthController.SignWithCode | src/google/google-auth.controller.ts:48-54 | a missing code or provider gives the same BadRequest "Provider is missing…" with no service call; otherwise the log gains findByAuthCode(code, provider), and for an unknown code nothing more, BadRequest "Invalid authentication code…", nothing sent and the status kept; for a known one exactly clearAuthCode(id) then issueTokens(id) follow, and status 200 is sent with exactly the issued `{accessToken, userId}` |
| GoogleController.GoogleAuthController.SigninWithProvider | src/google/google-auth.controller.ts:58-67 | next is validated before signin; an error from either is thrown with nothing sent; otherwise the response answers 302 with a redirect to the signin URL; on failure the status is kept |
| AuthCollaborator.AuthService.CreateUser | src/google/google-auth.service.ts:119 | records one createUser call with the metadata |
| AuthCollaborator.AuthService.IssueAuthCode | src/google/google-auth.service.ts:120-123 | records one issueAuthCode call with its identifier, provider and the code it answered |
| AuthCollaborator.AuthService.FindByAuthCode | src/google/google-auth.service.ts:128 | records one findByAuthCode call with its code, provider and answer |
| AuthCollaborator.AuthService.ClearAuthCode | src/google/google-auth.service.ts:132 | records one clearAuthCode call with the id |
| AuthCollaborator.AuthService.IssueTokens | src/google/google-auth.service.ts:133 | records one issueTokens call with the id and the tokens it answered |
| Express.Response.Redirect | src/google/google-auth.test.ts:105-108 | `res.redirect(url)` answers 302 and appends one redirect to what was sent |
| Express.Response.Status | src/google/google-auth.controller.ts:53 | sets the status and sends nothing |
| Express.Response.Json | src/google/google-auth.controller.ts:53 | sends the body with the status set so far |

## Findings

| source | as written | input that shows it | evidently intended | confidence | as-written member | corrected member |
|---|---|---|---|---|---|---|
| src/google/google-auth.service.ts:98 | `exchangeCodeForSession` passes the redirect URI under the key `redirectUri`, the key `GetSessionRequest` declares. `getSession` reads `redirect_uri` (line 49), so it throws BadRequest "Redirect uri is required for \"authorization_code\" exchange" (lines 55-56). The tests mock `getSession` (src/google/google-auth.test.ts:94-102), which hides this. | `GET /auth/google/callback?code=abc` with clientId and clientSecret set | the callback's redirect URI reaches `getSession`, is checked there, and is posted as the form's `redirect_uri` | high; not executed | GoogleService.AsWrittenExchangeAlwaysFails | GoogleService.GoogleAuthService.ExchangeCodeForSessionFixed |

`GoogleService.TypedAuthorizationRequestRejected`,
`GoogleService.GoogleAuthService.ExchangeCodeForSession` and
`GoogleController.GoogleAuthController.HandleCallbackAsWritten` also state the
as-written behaviour, the last one at the level of `GET /auth/google/callback`.
`GoogleService.CorrectedRequestAccepted` states the corrected one, and
`GoogleController.GoogleAuthController.HandleCallback` composes the corrected
exchange.

## Left out

- GoogleController.GoogleAuthController.HandleCallback: composes the corrected exchange (`ExchangeCodeForSessionFixed`), not the as-written one that src/google/google-auth.controller.ts:42 calls, so its success case is the intended behaviour; the behaviour as written, which always fails after validation, is `HandleCallbackAsWritten`.

- `fetch` to the token endpoint and the userinfo endpoint is I/O. Both appear only as the parameters `post` and `get`. Timeouts and exceptions thrown by `fetch` itself are not modelled, and neither are rejections from `response.json()` or `response.text()` (src/google/google-auth.service.ts:41, 43, 86, 89): a reply always carries either parsed JSON or a status and text.
- `URLSearchParams` percent-encoding is a library serialiser. It is the parameter `encode`, applied to the ordered parameter list.
- `AuthService` internals (`createUser`, `issueAuthCode`, `findByAuthCode`, `clearAuthCode`, `issueTokens`, `signout`) are not part of this model. Code lifetime, random code generation, JWT signing, atomic redemption and exceptions thrown by these calls are not modelled. `signinWithCode` also passes the Express `response` to `issueTokens` (src/google/google-auth.service.ts:133); the model drops that argument and whatever `issueTokens` does with it.
- The guard and the `@Public` marker (auth.guard) are not part of this model.
- Module wiring, the GraphQL resolvers and the signout controller are thin pass-throughs and are not modelled. The actual files are src/google/google-auth.module.ts, src/google/google-auth.resolver.ts, src/local/local-auth.resolver.ts, src/supabase/supabase-auth.resolver.ts, src/auth.resolver.ts and src/auth.controller.ts. In the wiring, the controller and the service receive the same `GoogleAuthConfig`. The model keeps the two references separate.
- `getSession` is called only from `exchangeCodeForSession` (src/google/google-auth.service.ts:98), always with type `authorization_code`. The refresh grant is therefore modelled only as validation and form body.
- A query parameter given more than once (an array) is modelled only for `scope`. `code`, `state` and `next` are taken as single values.
- `GoogleConfig.CreateGoogleAuthStrategy`: the input is typed without `type`. A caller that slipped a `type` property past the type checker would override the tag through the spread. The model does not represent that case, and it does not represent extra properties that the spread copies through.
- Local and Supabase configurations are represented by their tag alone. Their files are not part of this model.
- Nest's HTTP rendering of exceptions is not modelled. A thrown exception is a `Result.Err` carrying its kind and message.
