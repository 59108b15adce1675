/** The strategy configuration shared by all providers. */
module AuthConfig {

  /** The `AuthStrategyType` enum. */
  datatype AuthStrategyType = Local | Supabase | Google {

    /** The string value each enum member stands for. */
    function Tag(): string {
      match this
      case Local => "local"
      case Supabase => "Supabase"
      case Google => "Google"
    }
  }

  /**
   * `AuthStrategy`, the union of the per-provider configurations. Only the
   * Google variant's fields are part of this model; the local and Supabase
   * configurations are represented by their tag alone.
   */
  datatype AuthStrategy =
    | LocalStrategy
    | SupabaseStrategy
    | GoogleStrategy(clientId: string, clientSecret: string, redirectUrl: string)
  {
    function Type(): AuthStrategyType {
      match this
      case LocalStrategy => Local
      case SupabaseStrategy => Supabase
      case GoogleStrategy(_, _, _) => Google
    }
  }

  /** Dispatch by tag string is unambiguous: distinct members have distinct tags. */
  lemma TagsDistinct(a: AuthStrategyType, b: AuthStrategyType)
    ensures a.Tag() == b.Tag() <==> a == b
  {
  }
}
