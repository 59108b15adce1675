/**
 * `AuthService`, the adapter's collaborator for users, intermediary codes and
 * tokens. Its implementation is not part of this model: each operation
 * records its call, with whatever it answered, in a log, and its answers are
 * arbitrary. Code lifetime, code generation and token signing are not
 * modelled.
 */
module AuthCollaborator {
  import opened Js
  import opened GoogleTypes

  /** What `findByAuthCode` yields: the stored code's record. */
  datatype AuthMetadata = AuthMetadata(id: string)

  /** The part of `AuthInfo` the adapter reads. */
  datatype AuthInfo = AuthInfo(userId: string)

  /** What `issueTokens` yields. */
  datatype IssuedTokens = IssuedTokens(accessToken: string, authInfo: AuthInfo)

  /** One call to the collaborator, with its arguments and its answer. */
  datatype Call =
    | CreateUser(metadata: UserMetadata)
    | IssueAuthCode(identifier: Option<string>, provider: string, code: string)
    | FindByAuthCode(code: string, provider: string, found: Option<AuthMetadata>)
    | ClearAuthCode(id: string)
    | IssueTokens(id: string, tokens: IssuedTokens)

  class AuthService {
    /** Every call made so far, oldest first. */
    var log: seq<Call>

    constructor ()
      ensures log == []
    {
      log := [];
    }

    method CreateUser(metadata: UserMetadata)
      modifies this
      ensures log == old(log) + [Call.CreateUser(metadata)]
    {
      log := log + [Call.CreateUser(metadata)];
    }

    method IssueAuthCode(identifier: Option<string>, provider: string) returns (code: string)
      modifies this
      ensures log == old(log) + [Call.IssueAuthCode(identifier, provider, code)]
    {
      code :| true;
      log := log + [Call.IssueAuthCode(identifier, provider, code)];
    }

    method FindByAuthCode(code: string, provider: string) returns (found: Option<AuthMetadata>)
      modifies this
      ensures log == old(log) + [Call.FindByAuthCode(code, provider, found)]
    {
      found :| true;
      log := log + [Call.FindByAuthCode(code, provider, found)];
    }

    method ClearAuthCode(id: string)
      modifies this
      ensures log == old(log) + [Call.ClearAuthCode(id)]
    {
      log := log + [Call.ClearAuthCode(id)];
    }

    method IssueTokens(id: string) returns (tokens: IssuedTokens)
      modifies this
      ensures log == old(log) + [Call.IssueTokens(id, tokens)]
    {
      tokens :| true;
      log := log + [Call.IssueTokens(id, tokens)];
    }
  }
}
