/** The Google strategy's configuration and its factory. */
module GoogleConfig {
  import opened AuthConfig

  /**
   * `GoogleAuthConfig` with its `type` field left out: the field is fixed to
   * `AuthStrategyType.Google`, so the record carries only what varies. This is
   * also the shape of `Omit<GoogleAuthConfig, 'type'>`, the factory's input.
   */
  datatype GoogleAuthConfig = GoogleAuthConfig(clientId: string, clientSecret: string, redirectUrl: string)

  /** The `if (!clientId || !clientSecret)` test, negated: both credentials non-empty. */
  predicate HasCredentials(config: GoogleAuthConfig)
    ensures !HasCredentials(config) <==> config.clientId == "" || config.clientSecret == ""
  {
    config.clientId != "" && config.clientSecret != ""
  }

  /** `createGoogleAuthStrategy`: tags a configuration as the Google strategy. */
  function CreateGoogleAuthStrategy(config: GoogleAuthConfig): (s: AuthStrategy)
    ensures s.Type() == Google && s.Type().Tag() == "Google"
    ensures s.GoogleStrategy?
    ensures s.clientId == config.clientId
    ensures s.clientSecret == config.clientSecret
    ensures s.redirectUrl == config.redirectUrl
  {
    GoogleStrategy(config.clientId, config.clientSecret, config.redirectUrl)
  }

  /** The factory loses nothing: the configuration can be read back from the strategy. */
  lemma CreateGoogleAuthStrategyInjective(a: GoogleAuthConfig, b: GoogleAuthConfig)
    ensures CreateGoogleAuthStrategy(a) == CreateGoogleAuthStrategy(b) <==> a == b
  {
  }
}
