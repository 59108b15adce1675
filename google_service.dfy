/**
 * `GoogleAuthService`: the Google OAuth2 authorization-code flow. It builds
 * the authorization URL, validates and assembles the token request, maps the
 * userinfo reply to `UserMetadata`, and drives the collaborator through the
 * "provider code -> user -> intermediary code" and "intermediary code ->
 * tokens" sequences.
 *
 * The network is a parameter: `post(url, form)` is the token endpoint's reply
 * to a form-encoded POST, `get(url, authorization)` the userinfo endpoint's
 * reply to a GET with that `Authorization` header, and `encode` is
 * `URLSearchParams.prototype.toString`.
 */
module GoogleService {
  import opened Js
  import opened Errors
  import opened AuthConfig
  import opened GoogleConfig
  import opened GoogleTypes
  import opened AuthCollaborator

  const AuthorizationEndpoint := "https://accounts.google.com/o/oauth2/v2/auth"
  const TokenEndpoint := "https://oauth2.googleapis.com/token"
  const UserInfoEndpoint := "https://www.googleapis.com/oauth2/v3/userinfo"
  const DefaultScopes: seq<string> := ["openid", "profile", "email"]

  /** The provider name the flows use. */
  const Provider := "google"

  const MissingCredentialsMessage := "Missing clientId or clientSecret"
  const NotConfiguredMessage := "Google OAuth client ID and secret are not configured"
  const CodeRequiredMessage := "Authorization code is required for \"authorization_code\" exchange"
  const RedirectUriRequiredMessage := "Redirect uri is required for \"authorization_code\" exchange"
  const RefreshTokenRequiredMessage := "Refresh token is required for \"refresh_token\" exchange"
  const CodeMissingMessage := "Authorization code is missing. Please provide a valid code."
  const ExchangeFailedMessage := "Failed to exchange authorization code for session. Please try again."
  const InvalidCodeMessage := "Invalid authentication code. Please try again."
  /** What the JavaScript runtime throws for `scopes.join` on a string. */
  const JoinNotAFunctionMessage := "scopes.join is not a function"

  type TokenEndpointFetch = (string, Params) -> HttpReply<Option<GoogleAuthSession>>
  type UserInfoFetch = (string, string) -> HttpReply<Option<GoogleUserInfo>>

  /**
   * The provider name the flows use is none of the strategy tags; in
   * particular it differs from the Google strategy's own tag `"Google"`.
   */
  lemma ProviderIsNoStrategyTag(t: AuthStrategyType)
    ensures t.Tag() != Provider
    ensures t == Google <==> t.Tag() == "Google"
  {
  }

  /* ---------------------------------------------------------------------
   * signin: the authorization request
   * --------------------------------------------------------------------- */

  /**
   * The `scopes` argument as it arrives at run time: left out (so the
   * default applies), an array, or a single query-string value.
   */
  datatype ScopesArg = DefaultArg | ScopeArray(scopes: seq<string>) | ScopeString(text: string)

  datatype SigninData = SigninData(url: string)

  /**
   * The scope list `signin` uses for an argument that is not a bare string:
   * the default `['openid', 'profile', 'email']` applies only when the
   * argument is left out, and a given array is used as it is, even when empty.
   */
  function ScopeList(scopes: ScopesArg): (r: seq<string>)
    requires !scopes.ScopeString?
    ensures scopes.DefaultArg? ==> r == ["openid", "profile", "email"]
    ensures scopes.ScopeArray? ==> r == scopes.scopes
  {
    if scopes.DefaultArg? then DefaultScopes else scopes.scopes
  }

  /** The query parameters of the authorization URL, in insertion order: seven, each key once. */
  function AuthorizationParams(clientId: string, redirectUri: string, scopes: seq<string>, next: Option<string>): (ps: Params)
    ensures |ps| == 7 && DistinctKeys(ps)
  {
    [ ("client_id", clientId),
      ("redirect_uri", redirectUri),
      ("response_type", "code"),
      ("scope", Join(scopes, " ")),
      ("access_type", "offline"),
      ("prompt", "consent"),
      ("state", Interpolate(next)) ]
  }

  /**
   * `signin`: fails before building anything when a credential is empty;
   * `join` on a bare string throws; otherwise the URL is the endpoint, `?`,
   * and the serialised parameters.
   */
  function Signin(config: GoogleAuthConfig, scopes: ScopesArg, redirectUri: string, next: Option<string>,
                  encode: Params -> string): (r: Result<SigninData>)
    ensures r.Err? <==> !HasCredentials(config) || scopes.ScopeString?
    ensures !HasCredentials(config) ==> r == Err(UnauthorizedError(MissingCredentialsMessage))
    ensures HasCredentials(config) && scopes.ScopeString? ==> r == Err(TypeError(JoinNotAFunctionMessage))
    ensures r.Ok? ==> !scopes.ScopeString?
    ensures r.Ok? ==>
      r.value.url == AuthorizationEndpoint + "?" + encode(AuthorizationParams(config.clientId, redirectUri, ScopeList(scopes), next))
  {
    if !HasCredentials(config) then Err(UnauthorizedError(MissingCredentialsMessage))
    else if scopes.ScopeString? then Err(TypeError(JoinNotAFunctionMessage))
    else
      var params := AuthorizationParams(config.clientId, redirectUri, ScopeList(scopes), next);
      Ok(SigninData(AuthorizationEndpoint + "?" + encode(params)))
  }

  /** The seven parameters, in order, each once, with their values. */
  lemma AuthorizationParamsContents(clientId: string, redirectUri: string, scopes: seq<string>, next: Option<string>)
    ensures var ps := AuthorizationParams(clientId, redirectUri, scopes, next);
      && Keys(ps) == ["client_id", "redirect_uri", "response_type", "scope", "access_type", "prompt", "state"]
      && DistinctKeys(ps)
      && Lookup(ps, "client_id") == Some(clientId)
      && Lookup(ps, "redirect_uri") == Some(redirectUri)
      && Lookup(ps, "response_type") == Some("code")
      && Lookup(ps, "scope") == Some(Join(scopes, " "))
      && Lookup(ps, "access_type") == Some("offline")
      && Lookup(ps, "prompt") == Some("consent")
      && Lookup(ps, "state") == Some(Interpolate(next))
  {
    var ps := AuthorizationParams(clientId, redirectUri, scopes, next);
    assert Keys(ps) == ["client_id", "redirect_uri", "response_type", "scope", "access_type", "prompt", "state"];
    LookupDistinct(ps, 0); LookupDistinct(ps, 1); LookupDistinct(ps, 2); LookupDistinct(ps, 3);
    LookupDistinct(ps, 4); LookupDistinct(ps, 5); LookupDistinct(ps, 6);
  }

  /** The provider recovers the exact scope list from the space-joined `scope` parameter. */
  lemma ScopeRoundTrip(clientId: string, redirectUri: string, scopes: seq<string>, next: Option<string>)
    requires |scopes| >= 1
    requires forall i :: 0 <= i < |scopes| ==> ' ' !in scopes[i]
    ensures Lookup(AuthorizationParams(clientId, redirectUri, scopes, next), "scope").Some?
    ensures Split(Lookup(AuthorizationParams(clientId, redirectUri, scopes, next), "scope").value, ' ') == scopes
  {
    AuthorizationParamsContents(clientId, redirectUri, scopes, next);
    SplitJoin(scopes, ' ');
  }

  /** Left out, the scopes are `openid profile email`; `state` is `next`, or `"undefined"` when it is absent. */
  lemma SigninDefaults(config: GoogleAuthConfig, redirectUri: string, next: Option<string>, encode: Params -> string)
    requires HasCredentials(config)
    ensures Signin(config, DefaultArg, redirectUri, next, encode).Ok?
    ensures var ps := AuthorizationParams(config.clientId, redirectUri, DefaultScopes, next);
      && Lookup(ps, "scope") == Some("openid profile email")
      && Lookup(ps, "state") == Some(if next.Some? then next.value else "undefined")
  {
    AuthorizationParamsContents(config.clientId, redirectUri, DefaultScopes, next);
    assert Join(DefaultScopes, " ") == "openid profile email" by {
      assert DefaultScopes[1..] == ["profile", "email"];
      assert DefaultScopes[1..][1..] == ["email"];
    }
  }

  /* ---------------------------------------------------------------------
   * getSession: validation and the token request's form body
   * --------------------------------------------------------------------- */

  /** The four properties `getSession` reads from its (untyped) request. */
  datatype SessionFields = SessionFields(
    code: Option<string>,
    refreshToken: Option<string>,
    grantType: Option<string>,
    redirectUri: Option<string>)

  /**
   * `const { code, refreshToken, type, redirect_uri } = request as any`: each
   * field is the property of that exact name, `undefined` when it is absent;
   * a property `redirectUri` is not read.
   */
  function ReadSessionFields(request: JsObject): (f: SessionFields)
    ensures f.code.Some? <==> "code" in request
    ensures f.refreshToken.Some? <==> "refreshToken" in request
    ensures f.grantType.Some? <==> "type" in request
    ensures f.redirectUri.Some? <==> "redirect_uri" in request
    ensures f.code.Some? ==> f.code.value == request["code"]
    ensures f.refreshToken.Some? ==> f.refreshToken.value == request["refreshToken"]
    ensures f.grantType.Some? ==> f.grantType.value == request["type"]
    ensures f.redirectUri.Some? ==> f.redirectUri.value == request["redirect_uri"]
  {
    SessionFields(
      Property(request, "code"),
      Property(request, "refreshToken"),
      Property(request, "type"),
      Property(request, "redirect_uri"))
  }

  /** `getSession`'s checks before it contacts Google, in the order it makes them. */
  function ValidateSession(config: GoogleAuthConfig, f: SessionFields): (r: Result<()>)
    ensures r.Ok? <==>
      && HasCredentials(config)
      && (f.grantType == Some("authorization_code") ==> Truthy(f.code) && Truthy(f.redirectUri))
      && (f.grantType == Some("refresh_token") ==> Truthy(f.refreshToken))
    ensures r.Err? ==> r.error.HttpException? && r.error.kind == BadRequest
    ensures !HasCredentials(config) ==> r.error.message == NotConfiguredMessage
    ensures HasCredentials(config) && f.grantType == Some("authorization_code") && !Truthy(f.code) ==>
      r.error.message == CodeRequiredMessage
    ensures HasCredentials(config) && f.grantType == Some("authorization_code") && Truthy(f.code) && !Truthy(f.redirectUri) ==>
      r.error.message == RedirectUriRequiredMessage
    ensures HasCredentials(config) && f.grantType == Some("refresh_token") && !Truthy(f.refreshToken) ==>
      r.error.message == RefreshTokenRequiredMessage
  {
    if !HasCredentials(config) then Err(BadRequestError(NotConfiguredMessage))
    else if f.grantType == Some("authorization_code") then
      if !Truthy(f.code) then Err(BadRequestError(CodeRequiredMessage))
      else if !Truthy(f.redirectUri) then Err(BadRequestError(RedirectUriRequiredMessage))
      else Ok(())
    else if f.grantType == Some("refresh_token") && !Truthy(f.refreshToken) then
      Err(BadRequestError(RefreshTokenRequiredMessage))
    else Ok(())
  }

  const BaseFormKeys: seq<string> := ["access_type", "client_id", "client_secret"]

  /** The form body posted to the token endpoint: the credentials first, each key once. */
  function FormBody(config: GoogleAuthConfig, f: SessionFields): (b: Params)
    ensures |b| >= 3 && b[..3] == [("access_type", "offline"), ("client_id", config.clientId), ("client_secret", config.clientSecret)]
    ensures DistinctKeys(b)
  {
    [("access_type", "offline"), ("client_id", config.clientId), ("client_secret", config.clientSecret)]
    + (if f.grantType == Some("refresh_token")
       then [("refresh_token", Interpolate(f.refreshToken)), ("grant_type", "refresh_token")]
       else [])
    + (if f.grantType == Some("authorization_code")
       then [("code", Interpolate(f.code)), ("grant_type", "authorization_code"), ("redirect_uri", Interpolate(f.redirectUri))]
       else [])
  }

  /**
   * The form body: always the three base entries, then exactly the refresh
   * entries or exactly the authorization-code entries (never both), each key
   * once. After validation every value is the request's own.
   */
  lemma FormBodyContents(config: GoogleAuthConfig, f: SessionFields)
    ensures var b := FormBody(config, f);
      && DistinctKeys(b)
      && Keys(b)[..3] == BaseFormKeys
      && Lookup(b, "access_type") == Some("offline")
      && Lookup(b, "client_id") == Some(config.clientId)
      && Lookup(b, "client_secret") == Some(config.clientSecret)
      && (f.grantType == Some("refresh_token") ==>
            Keys(b) == BaseFormKeys + ["refresh_token", "grant_type"]
            && Lookup(b, "grant_type") == Some("refresh_token"))
      && (f.grantType == Some("authorization_code") ==>
            Keys(b) == BaseFormKeys + ["code", "grant_type", "redirect_uri"]
            && Lookup(b, "grant_type") == Some("authorization_code"))
      && (f.grantType != Some("refresh_token") && f.grantType != Some("authorization_code") ==>
            Keys(b) == BaseFormKeys)
      && !("refresh_token" in Keys(b) && "code" in Keys(b))
      && (f.grantType == Some("refresh_token") ==> Lookup(b, "code") == None && Lookup(b, "redirect_uri") == None)
      && (f.grantType == Some("authorization_code") ==> Lookup(b, "refresh_token") == None)
      && (ValidateSession(config, f).Ok? && f.grantType == Some("refresh_token") ==>
            Lookup(b, "refresh_token") == f.refreshToken)
      && (ValidateSession(config, f).Ok? && f.grantType == Some("authorization_code") ==>
            Lookup(b, "code") == f.code && Lookup(b, "redirect_uri") == f.redirectUri)
  {
    var b := FormBody(config, f);
    if f.grantType == Some("refresh_token") {
      assert Keys(b) == BaseFormKeys + ["refresh_token", "grant_type"];
      LookupDistinct(b, 3); LookupDistinct(b, 4);
      LookupFound(b, "code"); LookupFound(b, "redirect_uri");
    } else if f.grantType == Some("authorization_code") {
      assert Keys(b) == BaseFormKeys + ["code", "grant_type", "redirect_uri"];
      LookupDistinct(b, 3); LookupDistinct(b, 4); LookupDistinct(b, 5);
      LookupFound(b, "refresh_token");
    } else {
      assert Keys(b) == BaseFormKeys;
    }
    LookupDistinct(b, 0); LookupDistinct(b, 1); LookupDistinct(b, 2);
  }

  function TokenFailureMessage(status: nat, text: string): string {
    "Failed to refresh access token: " + DecimalString(status) + " " + text
  }

  function UserInfoFailureMessage(status: nat, text: string): string {
    "Failed to fetch user info: " + DecimalString(status) + " " + text
  }

  /**
   * `getSession`: a validation failure is thrown before any request; otherwise
   * the form body is posted to the token endpoint and its JSON returned, or
   * its failure thrown as a plain `Error`.
   */
  function GetSession(config: GoogleAuthConfig, request: JsObject, post: TokenEndpointFetch): (r: Result<Option<GoogleAuthSession>>)
    ensures var v := ValidateSession(config, ReadSessionFields(request));
      && (v.Err? ==> r == Err(v.error))
      && (v.Ok? ==> var reply := post(TokenEndpoint, FormBody(config, ReadSessionFields(request)));
            && (reply.Success? ==> r == Ok(reply.body))
            && (reply.Failure? ==> r == Err(PlainError(TokenFailureMessage(reply.status, reply.text)))))
  {
    var f := ReadSessionFields(request);
    var valid := ValidateSession(config, f);
    if valid.Err? then Err(valid.error)
    else
      match post(TokenEndpoint, FormBody(config, f))
      case Success(data) => Ok(data)
      case Failure(status, text) => Err(PlainError(TokenFailureMessage(status, text)))
  }

  /** `getUserInfo`: the userinfo reply for a bearer token. */
  function GetUserInfo(accessToken: string, get: UserInfoFetch): (r: Result<Option<GoogleUserInfo>>)
    ensures var reply := get(UserInfoEndpoint, "Bearer " + accessToken);
      && (reply.Success? ==> r == Ok(reply.body))
      && (reply.Failure? ==> r == Err(PlainError(UserInfoFailureMessage(reply.status, reply.text))))
  {
    match get(UserInfoEndpoint, "Bearer " + accessToken)
    case Success(data) => Ok(data)
    case Failure(status, text) => Err(PlainError(UserInfoFailureMessage(status, text)))
  }

  /* ---------------------------------------------------------------------
   * exchangeCodeForSession
   * --------------------------------------------------------------------- */

  /** The Google userinfo record as the adapter's canonical user metadata. */
  function ToUserMetadata(user: GoogleUserInfo): (m: UserMetadata)
    ensures m.provider == Provider
    ensures m.providerId == user.sub
    ensures m.identifier == m.email == user.email
    ensures m.name == user.name && m.pictureUrl == user.picture
  {
    UserMetadata(Provider, user.sub, user.name, user.email, user.email, user.picture)
  }

  /**
   * The provider half of the exchange: obtain a session for the request,
   * fetch the userinfo with its access token, map it to metadata. A missing
   * session, access token or user is an Unauthorized failure.
   */
  function ProviderExchange(config: GoogleAuthConfig, request: JsObject, post: TokenEndpointFetch, get: UserInfoFetch): (r: Result<UserMetadata>)
    ensures var v := ValidateSession(config, ReadSessionFields(request));
      && (v.Err? ==> r == Err(v.error))
    ensures var s := GetSession(config, request, post);
      && (s.Err? ==> r == Err(s.error))
      && (s.Ok? && (s.value.None? || !Truthy(s.value.value.accessToken)) ==> r == Err(UnauthorizedError(ExchangeFailedMessage)))
      && (s.Ok? && s.value.Some? && Truthy(s.value.value.accessToken) ==>
            var u := GetUserInfo(s.value.value.accessToken.value, get);
            && (u.Err? ==> r == Err(u.error))
            && (u.Ok? && u.value.None? ==> r == Err(UnauthorizedError(ExchangeFailedMessage)))
            && (u.Ok? && u.value.Some? ==> r == Ok(ToUserMetadata(u.value.value))))
    ensures r.Ok? ==> r.value.provider == Provider && r.value.identifier == r.value.email
  {
    var session :- GetSession(config, request, post);
    if session.None? || !Truthy(session.value.accessToken) then Err(UnauthorizedError(ExchangeFailedMessage))
    else
      var user :- GetUserInfo(session.value.accessToken.value, get);
      if user.None? then Err(UnauthorizedError(ExchangeFailedMessage))
      else Ok(ToUserMetadata(user.value))
  }

  /**
   * The request object `exchangeCodeForSession` builds, as written: a typed
   * `GetSessionRequest`, which carries the redirect URI as `redirectUri` and
   * has no `redirect_uri` property.
   */
  function AsWrittenRequest(code: string, redirectUri: string): (r: JsObject)
    ensures r.Keys == {"code", "type", "redirectUri"}
    ensures r["code"] == code && r["type"] == "authorization_code" && r["redirectUri"] == redirectUri
  {
    ToObject(AuthorizationCodeRequest(code, redirectUri))
  }

  /** The request object with the key `getSession` reads: the as-written one with `redirectUri` renamed `redirect_uri`. */
  function CorrectedRequest(code: string, redirectUri: string): (r: JsObject)
    ensures r == (AsWrittenRequest(code, redirectUri) - {"redirectUri"})["redirect_uri" := redirectUri]
  {
    map["code" := code, "type" := "authorization_code", "redirect_uri" := redirectUri]
  }

  /**
   * Any typed authorization-code request reaches `getSession` without a
   * `redirect_uri` property, so with credentials configured and a code given
   * it is always rejected, whatever the redirect URI.
   */
  lemma TypedAuthorizationRequestRejected(config: GoogleAuthConfig, code: string, redirectUri: string, post: TokenEndpointFetch)
    requires HasCredentials(config) && code != ""
    ensures ReadSessionFields(AsWrittenRequest(code, redirectUri)).redirectUri == None
    ensures GetSession(config, AsWrittenRequest(code, redirectUri), post) == Err(BadRequestError(RedirectUriRequiredMessage))
  {
  }

  /** The exchange as written never gets past `getSession`. */
  lemma AsWrittenExchangeAlwaysFails(config: GoogleAuthConfig, code: string, redirectUri: string, post: TokenEndpointFetch, get: UserInfoFetch)
    requires code != ""
    ensures var r := ProviderExchange(config, AsWrittenRequest(code, redirectUri), post, get);
      && (!HasCredentials(config) ==> r == Err(BadRequestError(NotConfiguredMessage)))
      && (HasCredentials(config) ==> r == Err(BadRequestError(RedirectUriRequiredMessage)))
  {
    if HasCredentials(config) {
      TypedAuthorizationRequestRejected(config, code, redirectUri, post);
    }
  }

  /** The corrected request passes validation and posts the code and the redirect URI. */
  lemma CorrectedRequestAccepted(config: GoogleAuthConfig, code: string, redirectUri: string)
    requires HasCredentials(config) && code != "" && redirectUri != ""
    ensures ValidateSession(config, ReadSessionFields(CorrectedRequest(code, redirectUri))).Ok?
    ensures var b := FormBody(config, ReadSessionFields(CorrectedRequest(code, redirectUri)));
      && Lookup(b, "code") == Some(code)
      && Lookup(b, "grant_type") == Some("authorization_code")
      && Lookup(b, "redirect_uri") == Some(redirectUri)
  {
    FormBodyContents(config, ReadSessionFields(CorrectedRequest(code, redirectUri)));
  }

  /**
   * With the corrected request, a token reply `{access_token: "t1"}` and a
   * userinfo reply `{sub: "u1", email: "a@b.com"}` give the metadata
   * `{provider: "google", providerId: "u1", identifier: "a@b.com"}`.
   */
  lemma ExchangeScenario(config: GoogleAuthConfig, redirectUri: string)
    requires HasCredentials(config) && redirectUri != ""
    ensures
      var session := GoogleAuthSession(Some("t1"), None, None, None, None, None);
      var user := GoogleUserInfo("u1", None, None, None, None, Some("a@b.com"), None, None, None);
      var r := ProviderExchange(config, CorrectedRequest("validcode", redirectUri),
                                (url, body) => Success(Some(session)), (url, auth) => Success(Some(user)));
      r.Ok? && r.value.provider == "google" && r.value.providerId == "u1" && r.value.identifier == Some("a@b.com")
  {
    CorrectedRequestAccepted(config, "validcode", redirectUri);
  }

  /** `{ code, provider }`, what the callback redirects with. */
  datatype ExchangeOutput = ExchangeOutput(code: string, provider: string)

  class GoogleAuthService {
    const authService: AuthService
    const config: GoogleAuthConfig

    constructor (authService: AuthService, config: GoogleAuthConfig)
      ensures this.authService == authService && this.config == config
    {
      this.authService := authService;
      this.config := config;
    }

    /**
     * The steps after the code check: session, userinfo, metadata, then
     * `createUser` strictly before `issueAuthCode`; nothing reaches the
     * collaborator when the provider half fails.
     */
    method CompleteExchange(request: JsObject, post: TokenEndpointFetch, get: UserInfoFetch) returns (r: Result<ExchangeOutput>)
      modifies authService
      ensures var pre := ProviderExchange(config, request, post, get);
        && (pre.Err? ==> r == Err(pre.error) && authService.log == old(authService.log))
        && (pre.Ok? ==>
              && r.Ok? && r.value.provider == Provider
              && authService.log == old(authService.log)
                   + [Call.CreateUser(pre.value), Call.IssueAuthCode(pre.value.identifier, Provider, r.value.code)])
    {
      var session := GetSession(config, request, post);
      if session.Err? {
        return Err(session.error);
      }
      if session.value.None? || !Truthy(session.value.value.accessToken) {
        return Err(UnauthorizedError(ExchangeFailedMessage));
      }
      var user := GetUserInfo(session.value.value.accessToken.value, get);
      if user.Err? {
        return Err(user.error);
      }
      if user.value.None? {
        return Err(UnauthorizedError(ExchangeFailedMessage));
      }
      var provider := Provider;
      var metadata := ToUserMetadata(user.value.value);
      authService.CreateUser(metadata);
      var issuedCode := authService.IssueAuthCode(metadata.identifier, metadata.provider);
      r := Ok(ExchangeOutput(issuedCode, provider));
    }

    /**
     * `exchangeCodeForSession` as written. A missing code is Unauthorized;
     * otherwise the request it builds is always rejected by `getSession`, so
     * the collaborator is never called.
     */
    method ExchangeCodeForSession(code: Option<string>, redirectUri: string, post: TokenEndpointFetch, get: UserInfoFetch)
      returns (r: Result<ExchangeOutput>)
      modifies authService
      ensures authService.log == old(authService.log)
      ensures !Truthy(code) ==> r == Err(UnauthorizedError(CodeMissingMessage))
      ensures Truthy(code) && !HasCredentials(config) ==> r == Err(BadRequestError(NotConfiguredMessage))
      ensures Truthy(code) && HasCredentials(config) ==> r == Err(BadRequestError(RedirectUriRequiredMessage))
    {
      if !Truthy(code) {
        return Err(UnauthorizedError(CodeMissingMessage));
      }
      AsWrittenExchangeAlwaysFails(config, code.value, redirectUri, post, get);
      r := CompleteExchange(AsWrittenRequest(code.value, redirectUri), post, get);
    }

    /**
     * `exchangeCodeForSession` with the request key corrected. A missing code
     * is Unauthorized with no collaborator call; otherwise the outcome is the
     * provider exchange's, and on success the collaborator saw `createUser`
     * then `issueAuthCode(identifier, "google")`, and the issued code is
     * returned with the provider.
     */
    method ExchangeCodeForSessionFixed(code: Option<string>, redirectUri: string, post: TokenEndpointFetch, get: UserInfoFetch)
      returns (r: Result<ExchangeOutput>)
      modifies authService
      ensures !Truthy(code) ==> r == Err(UnauthorizedError(CodeMissingMessage)) && authService.log == old(authService.log)
      ensures Truthy(code) ==> var pre := ProviderExchange(config, CorrectedRequest(code.value, redirectUri), post, get);
        && (pre.Err? ==> r == Err(pre.error) && authService.log == old(authService.log))
        && (pre.Ok? ==>
              && r.Ok? && r.value.provider == Provider
              && authService.log == old(authService.log)
                   + [Call.CreateUser(pre.value), Call.IssueAuthCode(pre.value.identifier, Provider, r.value.code)])
    {
      if !Truthy(code) {
        return Err(UnauthorizedError(CodeMissingMessage));
      }
      r := CompleteExchange(CorrectedRequest(code.value, redirectUri), post, get);
    }

    /**
     * `signinWithCode`: looks the code up; an unknown code is a BadRequest
     * and nothing else is called; a known one is cleared strictly before
     * tokens are issued for its id, and the access token and user id are
     * returned.
     */
    method SigninWithCode(code: string, provider: string) returns (r: Result<SigninOutput>)
      modifies authService
      ensures |authService.log| > |old(authService.log)|
      ensures authService.log[..|old(authService.log)|] == old(authService.log)
      ensures var calls := authService.log[|old(authService.log)|..];
        && calls[0].FindByAuthCode? && calls[0].code == code && calls[0].provider == provider
        && (calls[0].found.None? ==> |calls| == 1 && r == Err(BadRequestError(InvalidCodeMessage)))
        && (calls[0].found.Some? ==>
              var id := calls[0].found.value.id;
              && |calls| == 3
              && calls[1] == Call.ClearAuthCode(id)
              && calls[2].IssueTokens? && calls[2].id == id
              && r == Ok(SigninOutput(calls[2].tokens.accessToken, calls[2].tokens.authInfo.userId)))
    {
      ghost var before := authService.log;
      var authMetadata := authService.FindByAuthCode(code, provider);
      if authMetadata.None? {
        return Err(BadRequestError(InvalidCodeMessage));
      }
      authService.ClearAuthCode(authMetadata.value.id);
      var issued := authService.IssueTokens(authMetadata.value.id);
      assert authService.log[|before|..] ==
        [Call.FindByAuthCode(code, provider, authMetadata), Call.ClearAuthCode(authMetadata.value.id),
         Call.IssueTokens(authMetadata.value.id, issued)];
      r := Ok(SigninOutput(issued.accessToken, issued.authInfo.userId));
    }
  }
}
