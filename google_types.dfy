/** The records exchanged with Google and with the user store. */
module GoogleTypes {
  import opened Js

  /** `GetSessionRequest`, the typed request of the token exchange. */
  datatype GetSessionRequest =
    | AuthorizationCodeRequest(code: string, redirectUri: string)
    | RefreshTokenRequest(refreshToken: string)

  /** A plain JavaScript object with string-valued properties. */
  type JsObject = map<string, string>

  /** The object a `GetSessionRequest` literal builds: its properties are those the type declares. */
  function ToObject(request: GetSessionRequest): JsObject {
    match request
    case AuthorizationCodeRequest(code, redirectUri) =>
      map["code" := code, "type" := "authorization_code", "redirectUri" := redirectUri]
    case RefreshTokenRequest(refreshToken) =>
      map["refreshToken" := refreshToken, "type" := "refresh_token"]
  }

  /** `obj.key` on a plain object: `undefined` when the property is absent. */
  function Property(obj: JsObject, key: string): Option<string> {
    if key in obj then Some(obj[key]) else None
  }

  /** `GoogleAuthSession`, the token endpoint's JSON reply. */
  datatype GoogleAuthSession = GoogleAuthSession(
    accessToken: Option<string>,
    expiresIn: Option<int>,
    tokenType: Option<string>,
    refreshToken: Option<string>,
    scope: Option<string>,
    idToken: Option<string>)

  /** `GoogleUserInfo`, the userinfo endpoint's JSON reply. */
  datatype GoogleUserInfo = GoogleUserInfo(
    sub: string,
    name: Option<string>,
    givenName: Option<string>,
    familyName: Option<string>,
    picture: Option<string>,
    email: Option<string>,
    emailVerified: Option<bool>,
    locale: Option<string>,
    hd: Option<string>)

  /**
   * `UserMetadata`, the canonical record handed to the user store.
   * `identifier` is optional because the adapter fills it from the optional
   * `email` of the userinfo reply.
   */
  datatype UserMetadata = UserMetadata(
    provider: string,
    providerId: string,
    name: Option<string>,
    email: Option<string>,
    identifier: Option<string>,
    pictureUrl: Option<string>)

  /** `{ accessToken, userId }`, the result of redeeming an intermediary code. */
  datatype SigninOutput = SigninOutput(accessToken: string, userId: string)

  /** What `fetch` yields: an ok response with its parsed JSON body, or a failed one. */
  datatype HttpReply<+T> = Success(body: T) | Failure(status: nat, text: string)
}
