// Vocabulary shared by every module: results, identifiers, the clock and token hashes.

module Core {

  datatype Option<+T> = None | Some(value: T)

  // What a registration is refused for, field by field (internal/auth/register.go).
  datatype Detail =
    | EmailRequired
    | EmailTooLong
    | EmailNotAnAddress
    | PasswordRequired
    | PasswordTooShort
    | PasswordTooLong

  // The domain errors the use cases branch on (internal/auth/errors.go).
  datatype Error =
    | EmailTaken
    | InvalidCredentials
    | EmailNotVerified
    | TokenNotUsable
    | RefreshInvalid
    | UserNotFound
    | IdentityNotFound
    | ProviderEmailUnverified
    | ProviderClaimsIncomplete
    | LinkNeedsVerifiedEmail
    | IdentityAlreadyLinked
    | LastAuthMethod
    | ProviderNotConfigured
    | OAuthStateInvalid
    | TooManyAttempts
    | ValidationFailed(details: seq<Detail>)
    | MalformedHash
    | Panicked          // recovered from and answered as an internal error
    | StoreFailure      // a database error that is no domain error

  datatype Result<+T> = Ok(value: T) | Err(error: Error)

  type UserId = nat
  type IdentityId = nat
  type FamilyId = nat

  // One label per HTTP request; no two requests share one.
  type RequestId = nat

  // Seconds on the single clock that both the application and the database read.
  type Time = int

  const DAY: Time := 86400

  // SHA-256 is idealised as injective: a hash remembers the token it came from.
  datatype Hash = Sha256(plain: string)

  // X-Client-Platform as the handler passes it on; the empty string is a missing header.
  type Platform = string

  predicate IsWeb(p: Platform) {
    p == "web"
  }

  lemma SubsetCard<T>(s: set<T>, t: set<T>)
    requires s <= t
    ensures |s| <= |t|
  {
    assert t == s + (t - s);
  }
}
