/**
 * `GoogleAuthController`, mounted at `/auth/google`: `GET /` starts the login,
 * `GET /callback` finishes the provider round trip and redirects with an
 * intermediary code, and `POST /token` redeems that code for tokens.
 *
 * A handler's `Result` is `Err` exactly when it throws; Nest's rendering of
 * the exception as an HTTP response is not part of this model.
 */
module GoogleController {
  import opened Js
  import opened Errors
  import opened GoogleConfig
  import opened GoogleTypes
  import opened AuthCollaborator
  import opened Express
  import opened GoogleService

  const CallbackPath := "/auth/google/callback"
  const InvalidRedirectMessage := "Invalid redirect URL"
  const ProviderMissingMessage := "Provider is missing. Please provide a valid provider."

  /**
   * `validateNextUrl`: an absent or empty `next` passes; any other value must
   * equal one of the comma-separated entries of `redirectUrl` exactly (the
   * entries are not trimmed).
   */
  function ValidateNextUrl(config: GoogleAuthConfig, next: Option<string>): (r: Result<()>)
    ensures r.Ok? <==> !Truthy(next) || next.value in Split(config.redirectUrl, ',')
    ensures r.Err? ==> r.error == BadRequestError(InvalidRedirectMessage)
  {
    if !Truthy(next) then Ok(())
    else if next.value !in Split(config.redirectUrl, ',') then Err(BadRequestError(InvalidRedirectMessage))
    else Ok(())
  }

  /**
   * For an allow-list written as comma-joined entries without commas, a
   * non-empty `next` passes exactly when it is one of the entries.
   */
  lemma AllowListAcceptsExactlyEntries(config: GoogleAuthConfig, entries: seq<string>, next: string)
    requires |entries| >= 1
    requires forall i :: 0 <= i < |entries| ==> ',' !in entries[i]
    requires config.redirectUrl == Join(entries, ",")
    requires next != ""
    ensures ValidateNextUrl(config, Some(next)).Ok? <==> next in entries
  {
    SplitJoin(entries, ',');
  }

  /** Entries are compared untrimmed: with `"http://a, http://b"` configured, `"http://b"` is refused. */
  lemma AllowListNotTrimmed(clientId: string, clientSecret: string)
    ensures ValidateNextUrl(GoogleAuthConfig(clientId, clientSecret, "http://a, http://b"), Some("http://b")).Err?
  {
    var config := GoogleAuthConfig(clientId, clientSecret, "http://a, http://b");
    var entries := ["http://a", " http://b"];
    assert Join(entries, ",") == "http://a, http://b" by {
      assert entries[1..] == [" http://b"];
    }
    AllowListAcceptsExactlyEntries(config, entries, "http://b");
  }

  /**
   * `getRedirectUrl`: the callback URL on the request's own origin; an absent
   * `Host` header appears as `undefined`. The result splits back into its
   * protocol, `://`, the host and the callback path.
   */
  function GetRedirectUrl(protocol: string, host: Option<string>): (r: string)
    ensures |r| == |protocol| + 3 + |Interpolate(host)| + |CallbackPath|
    ensures r[..|protocol|] == protocol
    ensures r[|protocol|..|protocol| + 3] == "://"
    ensures r[|protocol| + 3..|r| - |CallbackPath|] == Interpolate(host)
    ensures r[|r| - |CallbackPath|..] == CallbackPath
  {
    protocol + "://" + Interpolate(host) + CallbackPath
  }

  /**
   * The post-login redirect `<next ?? redirectUrl>?code=<code>&provider=google`:
   * the URL splits back into its base, the code and the provider name.
   */
  function PostLoginUrl(next: Option<string>, redirectUrl: string, code: string): (r: string)
    ensures var base := Coalesce(next, redirectUrl);
      && |r| == |base| + |"?code="| + |code| + |"&provider="| + |Provider|
      && r[..|base|] == base
      && r[|base|..|base| + |"?code="|] == "?code="
      && r[|base| + |"?code="|..|r| - |"&provider="| - |Provider|] == code
      && r[|r| - |"&provider="| - |Provider|..] == "&provider=" + Provider
  {
    Coalesce(next, redirectUrl) + "?code=" + code + "&provider=google"
  }

  /**
   * After validation, the post-login redirect goes to an allow-listed entry,
   * to the whole configured `redirectUrl` when `state` is absent, or to the
   * bare query when `state` is empty (`??` keeps `""`); it always names the
   * provider `google`.
   */
  lemma PostLoginTargetAllowed(config: GoogleAuthConfig, next: Option<string>, code: string)
    requires ValidateNextUrl(config, next).Ok?
    ensures var target := Coalesce(next, config.redirectUrl);
      && PostLoginUrl(next, config.redirectUrl, code) == target + "?code=" + code + "&provider=" + Provider
      && (target in Split(config.redirectUrl, ',') || target == config.redirectUrl || target == "")
      && (next.None? ==> target == config.redirectUrl)
      && (next == Some("") ==> target == "")
  {
  }

  /** No authorization URL is empty, so the InternalServerError branch of the login handler is never taken. */
  lemma SigninUrlNeverEmpty(config: GoogleAuthConfig, scopes: ScopesArg, redirectUri: string, next: Option<string>,
                            encode: Params -> string)
    ensures var s := Signin(config, scopes, redirectUri, next, encode);
      s.Ok? ==> s.value.url != "" && s.value.url[..|AuthorizationEndpoint|] == AuthorizationEndpoint
  {
  }

  /** The query of `GET /callback`. */
  datatype CallbackQuery = CallbackQuery(code: Option<string>, state: Option<string>)

  /** The query of `GET /`. */
  datatype SigninQuery = SigninQuery(scope: ScopesArg, next: Option<string>)

  /** What the handlers read from the request besides its query. */
  datatype RequestInfo = RequestInfo(protocol: string, host: Option<string>)

  /** The JSON body of `POST /token`. */
  datatype TokenInput = TokenInput(code: Option<string>, provider: Option<string>)

  class GoogleAuthController {
    const config: GoogleAuthConfig
    const googleAuthService: GoogleAuthService

    constructor (config: GoogleAuthConfig, googleAuthService: GoogleAuthService)
      ensures this.config == config && this.googleAuthService == googleAuthService
    {
      this.config := config;
      this.googleAuthService := googleAuthService;
    }

    /**
     * The last step of `GET /callback`: a failed exchange is thrown with
     * nothing sent; a successful one is answered with a 302 redirect to the
     * post-login URL carrying the issued code.
     */
    method RedirectWithCode(next: Option<string>, output: Result<ExchangeOutput>, res: Response) returns (r: Result<()>)
      modifies res
      ensures output.Err? ==> r == Err(output.error) && res.sent == old(res.sent) && res.statusCode == old(res.statusCode)
      ensures output.Ok? ==>
        && r.Ok? && res.statusCode == FoundStatus
        && res.sent == old(res.sent) + [Sent.Redirect(PostLoginUrl(next, config.redirectUrl, output.value.code))]
    {
      if output.Err? {
        return Err(output.error);
      }
      res.Redirect(PostLoginUrl(next, config.redirectUrl, output.value.code));
      r := Ok(());
    }

    /**
     * `GET /callback` as written, calling `exchangeCodeForSession` as written:
     * after `state` passes, a falsy code is Unauthorized and any other code
     * fails in `getSession`, so the handler never redirects and never reaches
     * the collaborator.
     */
    method HandleCallbackAsWritten(query: CallbackQuery, request: RequestInfo, res: Response,
                                   post: TokenEndpointFetch, get: UserInfoFetch) returns (r: Result<()>)
      modifies res, googleAuthService.authService
      ensures r.Err? && res.sent == old(res.sent) && res.statusCode == old(res.statusCode)
      ensures googleAuthService.authService.log == old(googleAuthService.authService.log)
      ensures ValidateNextUrl(config, query.state).Err? ==> r == Err(BadRequestError(InvalidRedirectMessage))
      ensures ValidateNextUrl(config, query.state).Ok? ==>
        && (!Truthy(query.code) ==> r == Err(UnauthorizedError(CodeMissingMessage)))
        && (Truthy(query.code) && !HasCredentials(googleAuthService.config) ==> r == Err(BadRequestError(NotConfiguredMessage)))
        && (Truthy(query.code) && HasCredentials(googleAuthService.config) ==> r == Err(BadRequestError(RedirectUriRequiredMessage)))
    {
      var next := query.state;
      var valid := ValidateNextUrl(config, next);
      if valid.Err? {
        return Err(valid.error);
      }
      var redirectUri := GetRedirectUrl(request.protocol, request.host);
      var output := googleAuthService.ExchangeCodeForSession(query.code, redirectUri, post, get);
      r := RedirectWithCode(next, output, res);
    }

    /**
     * `GET /callback` with the corrected exchange: `state` is validated before
     * the exchange (an invalid one fails with nothing else done); a successful
     * exchange ends in a 302 redirect to the post-login URL carrying the code
     * just issued; a failed one sends nothing.
     */
    method HandleCallback(query: CallbackQuery, request: RequestInfo, res: Response,
                          post: TokenEndpointFetch, get: UserInfoFetch) returns (r: Result<()>)
      modifies res, googleAuthService.authService
      ensures r.Err? ==> res.statusCode == old(res.statusCode)
      ensures r.Ok? ==> res.statusCode == FoundStatus
      ensures ValidateNextUrl(config, query.state).Err? ==>
        && r == Err(BadRequestError(InvalidRedirectMessage))
        && googleAuthService.authService.log == old(googleAuthService.authService.log)
      ensures r.Err? ==> res.sent == old(res.sent)
      ensures ValidateNextUrl(config, query.state).Ok? ==>
        (r.Ok? <==>
          && Truthy(query.code)
          && ProviderExchange(googleAuthService.config,
               CorrectedRequest(query.code.value, GetRedirectUrl(request.protocol, request.host)), post, get).Ok?)
      ensures ValidateNextUrl(config, query.state).Ok? && !Truthy(query.code) ==>
        && r == Err(UnauthorizedError(CodeMissingMessage))
        && googleAuthService.authService.log == old(googleAuthService.authService.log)
      ensures ValidateNextUrl(config, query.state).Ok? && Truthy(query.code) ==>
        var pre := ProviderExchange(googleAuthService.config,
                     CorrectedRequest(query.code.value, GetRedirectUrl(request.protocol, request.host)), post, get);
        var log := googleAuthService.authService.log;
        && (pre.Err? ==> r == Err(pre.error) && log == old(googleAuthService.authService.log))
        && (pre.Ok? ==>
              && |log| >= 2 && log[|log| - 1].IssueAuthCode?
              && log == old(googleAuthService.authService.log)
                   + [Call.CreateUser(pre.value), Call.IssueAuthCode(pre.value.identifier, Provider, log[|log| - 1].code)])
      ensures r.Ok? ==>
        var log := googleAuthService.authService.log;
        && |log| >= 1 && log[|log| - 1].IssueAuthCode?
        && res.sent == old(res.sent) + [Sent.Redirect(PostLoginUrl(query.state, config.redirectUrl, log[|log| - 1].code))]
    {
      var next := query.state;
      var valid := ValidateNextUrl(config, next);
      if valid.Err? {
        return Err(valid.error);
      }
      var redirectUri := GetRedirectUrl(request.protocol, request.host);
      var output := googleAuthService.ExchangeCodeForSessionFixed(query.code, redirectUri, post, get);
      r := RedirectWithCode(next, output, res);
    }

    /**
     * `POST /token`: a missing code or provider fails with one message and
     * no call to the service; otherwise the service's outcome decides, and on
     * success exactly its `{accessToken, userId}` is sent with status 200.
     */
    method SignWithCode(response: Response, input: Option<TokenInput>) returns (r: Result<()>)
      modifies response, googleAuthService.authService
      ensures !(input.Some? && Truthy(input.value.code) && Truthy(input.value.provider)) ==>
        && r == Err(BadRequestError(ProviderMissingMessage))
        && googleAuthService.authService.log == old(googleAuthService.authService.log)
        && response.sent == old(response.sent)
      ensures r.Err? ==> response.sent == old(response.sent) && response.statusCode == old(response.statusCode)
      ensures input.Some? && Truthy(input.value.code) && Truthy(input.value.provider) ==>
        var before := old(googleAuthService.authService.log);
        var log := googleAuthService.authService.log;
        && |log| > |before| && log[..|before|] == before
        && log[|before|].FindByAuthCode?
        && log[|before|].code == input.value.code.value && log[|before|].provider == input.value.provider.value
        && (r.Ok? <==> log[|before|].found.Some?)
        && (r.Err? ==> r == Err(BadRequestError(InvalidCodeMessage)) && |log| == |before| + 1)
        && (r.Ok? ==>
              && |log| == |before| + 3
              && log[|before| + 1] == Call.ClearAuthCode(log[|before|].found.value.id)
              && log[|before| + 2].IssueTokens? && log[|before| + 2].id == log[|before|].found.value.id
              && log[|log| - 1].IssueTokens?
              && var tokens := log[|log| - 1].tokens;
              && response.statusCode == 200
              && response.sent == old(response.sent) + [Sent.Json(200, SigninOutput(tokens.accessToken, tokens.authInfo.userId))])
    {
      if !(input.Some? && Truthy(input.value.code) && Truthy(input.value.provider)) {
        return Err(BadRequestError(ProviderMissingMessage));
      }
      var user := googleAuthService.SigninWithCode(input.value.code.value, input.value.provider.value);
      if user.Err? {
        return Err(user.error);
      }
      response.Status(200);
      response.Json(user.value);
      r := Ok(());
    }

    /**
     * `GET /`: `next` is validated before `signin`; an error from either is
     * thrown with nothing sent; otherwise the response is a 302 redirect to
     * the authorization URL.
     */
    method SigninWithProvider(query: SigninQuery, request: RequestInfo, res: Response, encode: Params -> string)
      returns (r: Result<()>)
      modifies res
      ensures r.Err? ==> res.statusCode == old(res.statusCode)
      ensures r.Ok? ==> res.statusCode == FoundStatus
      ensures ValidateNextUrl(config, query.next).Err? ==>
        r == Err(BadRequestError(InvalidRedirectMessage)) && res.sent == old(res.sent)
      ensures ValidateNextUrl(config, query.next).Ok? ==>
        var s := Signin(googleAuthService.config, query.scope, GetRedirectUrl(request.protocol, request.host), query.next, encode);
        && (s.Err? ==> r == Err(s.error) && res.sent == old(res.sent))
        && (s.Ok? ==> r.Ok? && res.sent == old(res.sent) + [Sent.Redirect(s.value.url)])
    {
      var next := query.next;
      var valid := ValidateNextUrl(config, next);
      if valid.Err? {
        return Err(valid.error);
      }
      var redirectUri := GetRedirectUrl(request.protocol, request.host);
      var response := Signin(googleAuthService.config, query.scope, redirectUri, next, encode);
      if response.Err? {
        return Err(response.error);
      }
      if response.value.url == "" {
        return Err(HttpException(InternalServerError, InvalidRedirectMessage));
      }
      res.Redirect(response.value.url);
      r := Ok(());
    }
  }
}
