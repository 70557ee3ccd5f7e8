// The use cases of internal/auth as the service runs them, statement by statement, each proved to do
// what its function in Requests says.

module Service {
  import opened Core
  import opened Text
  import opened AccountTables
  import opened Store
  import Requests
  import RequestRuns
  import VerificationLinks
  import RefreshTokens
  import BrowserFlow
  import RateLimit
  import Rotation
  import Password

  type Session = Requests.Session
  type Drawn = Requests.Drawn

  const MAX_EMAIL_LEN := 254
  const MIN_PASSWORD_LEN := 12
  const MAX_PASSWORD_LEN := 256

  // What a registration has to satisfy, with the outcome of mail.ParseAddress as a parameter.
  predicate ValidRegistration(email: string, password: string, parses: bool) {
    && email != "" && |email| <= MAX_EMAIL_LEN && parses
    && MIN_PASSWORD_LEN <= |password| <= MAX_PASSWORD_LEN
  }

  // What is wrong with each field, if anything.
  function EmailFaults(email: string, parses: bool): seq<Detail> {
    if email == "" then [EmailRequired]
    else if |email| > MAX_EMAIL_LEN then [EmailTooLong]
    else if !parses then [EmailNotAnAddress]
    else []
  }

  function PasswordFaults(password: string): seq<Detail> {
    if password == "" then [PasswordRequired]
    else if |password| < MIN_PASSWORD_LEN then [PasswordTooShort]
    else if |password| > MAX_PASSWORD_LEN then [PasswordTooLong]
    else []
  }

  // validateRegistration: every field is reported at once, each with the first thing wrong with it, and
  // nothing is reported exactly for a valid registration.
  method ValidateRegistration(email: string, password: string, parses: bool) returns (details: seq<Detail>)
    ensures details == EmailFaults(email, parses) + PasswordFaults(password)
    ensures details == [] <==> ValidRegistration(email, password, parses)
  {
    details := [];
    if email == "" {
      details := details + [EmailRequired];
    } else if |email| > MAX_EMAIL_LEN {
      details := details + [EmailTooLong];
    } else if !parses {
      details := details + [EmailNotAnAddress];
    }
    if password == "" {
      details := details + [PasswordRequired];
    } else if |password| < MIN_PASSWORD_LEN {
      details := details + [PasswordTooShort];
    } else if |password| > MAX_PASSWORD_LEN {
      details := details + [PasswordTooLong];
    }
  }

  function LoginCall(email: string, at: real): RateLimit.Call {
    RateLimit.Call("login:" + NormalizeEmail(email), at)
  }

  function ResendCall(email: string, at: real): RateLimit.Call {
    RateLimit.Call("verify-resend:" + NormalizeEmail(email), at)
  }

  // The browser flow as a callback finds it.
  function FlowOf(now: Time, providers: set<string>, rows: map<string, BrowserFlow.Row>): BrowserFlow.State {
    BrowserFlow.State(now, providers, rows, {}, BrowserFlow.History(map[], {}, map[]))
  }

  // A registration is accepted for an address of 1 to 254 characters that parses and a password of 12 to 256.
  lemma RegistrationBounds(email: string, password: string, parses: bool)
    ensures ValidRegistration(email, password, parses)
            <==> 1 <= |email| <= 254 && parses && 12 <= |password| <= 256
  {
  }

  // Two spellings of an address share their bucket of login attempts and their bucket of resends; other
  // addresses, and the two kinds of attempt, do not.
  lemma BucketsAreByAddress(a: string, b: string, at: real, later: real)
    ensures LoginCall(a, at).key == LoginCall(b, later).key <==> Respelled(a, b)
    ensures ResendCall(a, at).key == ResendCall(b, later).key <==> Respelled(a, b)
    ensures LoginCall(a, at).key != ResendCall(b, later).key
    ensures LoginCall(a, at).at == at && ResendCall(a, at).at == at
  {
    NormalizedAlikeExactlyWhenRespelled(a, b);
    var m, n := NormalizeEmail(a), NormalizeEmail(b);
    assert ("login:" + m)[6..] == m && ("login:" + n)[6..] == n;
    assert ("verify-resend:" + m)[14..] == m && ("verify-resend:" + n)[14..] == n;
    assert LoginCall(a, at).key[0] == 'l' && ResendCall(b, later).key[0] == 'v';
    hide NormalizeEmail, Respelled;
  }

  class AuthService {
    const store: PostgresStore
    const config: Rotation.Config
    const emailTtl: Time
    const argon: Password.Argon
    // A missing limiter permits everything.
    const loginLimiter: RateLimit.Memory?
    const resendLimiter: RateLimit.Memory?
    var providers: set<string>

    constructor (store: PostgresStore, config: Rotation.Config, emailTtl: Time, argon: Password.Argon,
                 loginLimiter: RateLimit.Memory?, resendLimiter: RateLimit.Memory?, providers: set<string>)
      ensures this.store == store && this.config == config && this.emailTtl == emailTtl && this.argon == argon
      ensures this.loginLimiter == loginLimiter && this.resendLimiter == resendLimiter && this.providers == providers
    {
      this.store, this.config, this.emailTtl, this.argon := store, config, emailTtl, argon;
      this.loginLimiter, this.resendLimiter, this.providers := loginLimiter, resendLimiter, providers;
    }

    // ----- internal/auth/session.go -----

    method IssueSession(u: UserId, f: FamilyId, p: Platform, token: string) returns (s: Session)
      modifies store`refreshTokens
      ensures (store.Tables(), Ok(s)) == Requests.IssueSession(old(store.Tables()), config, u, f, p, token)
    {
      var ttl := Rotation.Ttl(config, p);
      store.CreateRefreshToken(u, Sha256(token), f, p, store.now + ttl);
      s := Requests.Session(u, token, ttl);
    }

    method Refresh(plain: string, p: Platform, token: string) returns (r: Result<Session>)
      modifies store`refreshTokens
      ensures (store.Tables(), r) == Requests.Refresh(old(store.Tables()), config, plain, p, token)
    {
      if plain == "" {
        return Err(RefreshInvalid);
      }
      var hash := Sha256(plain);
      var use := store.UseRefreshToken(hash);
      if use.Ok? {
        var s := IssueSession(use.value.0, use.value.1, p, token);
        return Ok(s);
      }
      HandleUnusableRefresh(hash);
      r := Err(RefreshInvalid);
    }

    method HandleUnusableRefresh(hash: Hash)
      modifies store`refreshTokens
      ensures store.refreshTokens ==
                if hash in old(store.refreshTokens) && old(store.refreshTokens)[hash].usedAt.Some?
                then RefreshTokens.RevokeFamily(old(store.refreshTokens), old(store.refreshTokens)[hash].family,
                                                store.now)
                else old(store.refreshTokens)
    {
      var status := store.RefreshTokenByHash(hash);
      if status.Err? || status.value.1.None? {
        return;
      }
      store.RevokeRefreshFamily(status.value.0);
    }

    method Logout(plain: string)
      modifies store`refreshTokens
      ensures store.Tables() == Requests.Logout(old(store.Tables()), plain)
    {
      if plain == "" {
        return;
      }
      var status := store.RefreshTokenByHash(Sha256(plain));
      if status.Err? {
        return;
      }
      store.RevokeRefreshFamily(status.value.0);
    }

    // ----- internal/auth/login.go -----

    // The limiter is asked first, keyed by the normalised address; `at` is its clock.
    method Login(email: string, password: string, p: Platform, drawn: Drawn, at: real) returns (r: Result<Session>)
      requires store.Valid()
      modifies store`refreshTokens, loginLimiter
      ensures store.Valid()
      ensures loginLimiter == null ==>
                (store.Tables(), r) == Requests.Login(old(store.Tables()), config, argon, email, password, p, drawn)
      ensures loginLimiter != null ==>
                var (allowed, after) := RateLimit.AllowCall(loginLimiter.config, old(loginLimiter.Now()),
                                                            LoginCall(email, at));
                && loginLimiter.Now() == after
                && (allowed ==>
                      (store.Tables(), r)
                      == Requests.Login(old(store.Tables()), config, argon, email, password, p, drawn))
                && (!allowed ==> r == Err(TooManyAttempts) && store.Tables() == old(store.Tables()))
    {
      var normalized := NormalizeEmail(email);
      if loginLimiter != null {
        var allowed := loginLimiter.Allow("login:" + normalized, at);
        if !allowed {
          return Err(TooManyAttempts);
        }
      }
      var found := store.UserByEmail(normalized);
      if found.Err? || !HasPassword(found.value.1) {
        return Err(InvalidCredentials);
      }
      var ok := Password.VerifyPassword(argon, password, found.value.1.password.value);
      if ok.Err? {
        return Err(ok.error);
      }
      if !ok.value {
        return Err(InvalidCredentials);
      }
      if !Verified(found.value.1) {
        return Err(EmailNotVerified);
      }
      var s := IssueSession(found.value.0, drawn.family, p, drawn.token);
      r := Ok(s);
    }

    // ----- internal/auth/register.go -----

    method Register(email: string, password: string, parses: bool, salt: Password.Bytes, id: UserId, link: string)
        returns (r: Result<UserId>)
      requires store.Valid() && id !in store.users
      modifies store`users, store`links
      ensures store.Valid()
      ensures !ValidRegistration(NormalizeEmail(email), password, parses) ==>
                && r == Err(ValidationFailed(EmailFaults(NormalizeEmail(email), parses) + PasswordFaults(password)))
                && store.Tables() == old(store.Tables())
      ensures ValidRegistration(NormalizeEmail(email), password, parses) ==>
                (store.Tables(), r) == Requests.Register(old(store.Tables()), emailTtl, email,
                                                         Password.HashPassword(argon, password, salt), id, link)
    {
      RequestRuns.RegisterMoves(Requests.ServerOf(store.Tables(), emailTtl), 0, id, email,
                                Password.HashPassword(argon, password, salt), link);
      hide VerificationLinks.RegisterAll, Password.HashPassword, NormalizeEmail, AccountTables.UserByEmail;
      var normalized := NormalizeEmail(email);
      var details := ValidateRegistration(normalized, password, parses);
      if details != [] {
        return Err(ValidationFailed(details));
      }
      var hash := Password.HashPassword(argon, password, salt);
      r := store.CreateUser(id, normalized, Some(hash));
      if r.Err? {
        return;
      }
      SendEmailVerification(id, link);
    }

    method SendEmailVerification(u: UserId, link: string)
      modifies store`links
      ensures store.links == old(store.links)[Sha256(link) := Link(u, None, store.now + emailTtl)]
    {
      store.CreateVerificationToken(u, Sha256(link), store.now + emailTtl);
    }

    method ResendEmailVerification(email: string, link: string, at: real)
      requires store.Valid()
      modifies store`links, resendLimiter
      ensures store.Valid()
      ensures resendLimiter == null ==>
                store.Tables() == Requests.Resend(old(store.Tables()), emailTtl, email, link)
      ensures resendLimiter != null ==>
                var (allowed, after) := RateLimit.AllowCall(resendLimiter.config, old(resendLimiter.Now()),
                                                            ResendCall(email, at));
                && resendLimiter.Now() == after
                && store.Tables() == if allowed then Requests.Resend(old(store.Tables()), emailTtl, email, link)
                                     else old(store.Tables())
    {
      RequestRuns.ResendMoves(Requests.ServerOf(store.Tables(), emailTtl), 0, email, link);
      hide VerificationLinks.ResendAll, NormalizeEmail, AccountTables.UserByEmail, Invalidate;
      var normalized := NormalizeEmail(email);
      if resendLimiter != null {
        var allowed := resendLimiter.Allow("verify-resend:" + normalized, at);
        if !allowed {
          return;
        }
      }
      var found := store.UserByEmail(normalized);
      if found.Err? || Verified(found.value.1) {
        return;
      }
      store.InvalidateEmailVerificationTokens(found.value.0);
      SendEmailVerification(found.value.0, link);
    }

    // ----- internal/auth/verifyemail.go -----

    method VerifyEmail(plain: string) returns (r: Result<UserId>)
      requires store.Valid()
      modifies store`links, store`users
      ensures store.Valid() && (store.Tables(), r) == Requests.VerifyEmail(old(store.Tables()), plain)
    {
      if plain == "" {
        return Err(TokenNotUsable);
      }
      r := store.ConsumeEmailVerification(Sha256(plain));
    }

    // ----- internal/auth/oidc.go -----

    method SignInWithProvider(provider: string, claims: Claims, p: Platform, drawn: Drawn) returns (r: Result<Session>)
      requires store.Valid() && drawn.user !in store.users && drawn.identity !in store.identities
      modifies store`users, store`identities, store`refreshTokens
      ensures store.Valid()
      ensures (store.Tables(), r) == Requests.SignIn(old(store.Tables()), config, provider, claims, p, drawn)
    {
      if !claims.emailVerified {
        return Err(ProviderEmailUnverified);
      }
      if claims.subject == "" || claims.email == "" {
        return Err(ProviderClaimsIncomplete);
      }
      var email := NormalizeEmail(claims.email);
      var owner: Result<UserId>;
      var identity := store.IdentityByProviderSubject(provider, claims.subject);
      if identity.Ok? {
        owner := Ok(identity.value.user);
      } else {
        var found := store.UserByEmail(email);
        if found.Err? {
          owner := store.CreateUserWithIdentity(drawn.user, email, drawn.identity, provider, claims);
        } else if !Verified(found.value.1) {
          owner := Err(LinkNeedsVerifiedEmail);
        } else {
          var linked := store.CreateIdentity(found.value.0, drawn.identity, provider, claims);
          owner := match linked case Ok(_) => Ok(found.value.0) case Err(e) => Err(e);
        }
      }
      if owner.Err? {
        return Err(owner.error);
      }
      var s := IssueSession(owner.value, drawn.family, p, drawn.token);
      r := Ok(s);
    }

    // ----- internal/auth/identity.go -----

    // `verified` is the provider's verdict on the ID token.
    method LinkProviderToken(u: UserId, provider: string, verified: Result<Claims>, id: IdentityId)
        returns (r: Result<IdentityId>)
      requires store.Valid() && id !in store.identities
      modifies store`identities
      ensures store.Valid()
      ensures provider !in providers ==> r == Err(ProviderNotConfigured) && store.Tables() == old(store.Tables())
      ensures provider in providers && verified.Err? ==>
                r == Err(verified.error) && store.Tables() == old(store.Tables())
      ensures provider in providers && verified.Ok? ==>
                (store.Tables(), r) == Requests.LinkProvider(old(store.Tables()), u, provider, verified.value, id)
    {
      if provider !in providers {
        return Err(ProviderNotConfigured);
      }
      if verified.Err? {
        return Err(verified.error);
      }
      if !verified.value.emailVerified {
        return Err(ProviderEmailUnverified);
      }
      r := store.CreateIdentity(u, id, provider, verified.value);
    }

    method UnlinkIdentity(u: UserId, id: IdentityId) returns (r: Result<IdentityId>)
      requires store.Valid()
      modifies store`identities
      ensures store.Valid() && (store.Tables(), r) == Requests.Unlink(old(store.Tables()), u, id)
    {
      var methods := store.CountMethods(u);
      if methods <= 1 {
        return Err(LastAuthMethod);
      }
      r := store.DeleteIdentity(id, u);
    }

    // ----- internal/auth/oidc_web.go -----

    method StartProviderSignIn(state: string, ticket: BrowserFlow.Ticket) returns (r: Result<string>)
      modifies store`oauthStates
      ensures ticket.provider !in providers ==>
                r == Err(ProviderNotConfigured) && store.oauthStates == old(store.oauthStates)
      ensures ticket.provider in providers ==>
                var row := BrowserFlow.Row(ticket, store.now + BrowserFlow.STATE_TTL);
                r == Ok(state) && store.oauthStates == old(store.oauthStates)[state := row]
    {
      if ticket.provider !in providers {
        return Err(ProviderNotConfigured);
      }
      store.CreateOAuthState(state, ticket, store.now + BrowserFlow.STATE_TTL);
      r := Ok(state);
    }

    // `exchanged` is what the provider answers to the code.  The state is spent whatever follows.
    method CompleteProviderSignIn(state: string, code: string, exchanged: Result<Claims>, p: Platform, drawn: Drawn)
        returns (r: Result<(Session, Option<string>)>)
      requires store.Valid() && drawn.user !in store.users && drawn.identity !in store.identities
      modifies store`users, store`identities, store`refreshTokens, store`oauthStates
      ensures store.Valid()
      ensures var flow := FlowOf(store.now, providers, old(store.oauthStates));
              var read := BrowserFlow.CallbackStep(flow, 0, state, code);
              store.oauthStates == read.rows
      ensures var flow := FlowOf(store.now, providers, old(store.oauthStates));
              var reached := 0 in BrowserFlow.CallbackStep(flow, 0, state, code).flight;
              if reached && exchanged.Ok? then
                var ticket := flow.rows[state].ticket;
                var db := old(store.Tables());
                var (after, s) := Requests.SignIn(db, config, ticket.provider, exchanged.value, p, drawn);
                store.Tables() == after && r == (if s.Ok? then Ok((s.value, ticket.redirect)) else Err(s.error))
              else
                && store.Tables() == old(store.Tables())
                && r == Err(if reached then exchanged.error
                            else if BrowserFlow.Consumable(flow, state, code) then ProviderNotConfigured
                            else OAuthStateInvalid)
    {
      if state == "" || code == "" {
        return Err(OAuthStateInvalid);
      }
      var ticket := store.ConsumeOAuthState(state);
      if ticket.Err? {
        return Err(ticket.error);
      }
      if ticket.value.provider !in providers {
        return Err(ProviderNotConfigured);
      }
      if exchanged.Err? {
        return Err(exchanged.error);
      }
      var s := SignInWithProvider(ticket.value.provider, exchanged.value, p, drawn);
      if s.Err? {
        return Err(s.error);
      }
      r := Ok((s.value, ticket.value.redirect));
    }

    // ----- internal/auth/sweep.go -----

    method SweepExpired()
      modifies store`oauthStates, store`links, store`refreshTokens
      ensures store.oauthStates == BrowserFlow.DeleteExpired(old(store.oauthStates), store.now)
      ensures store.links == DeleteExpiredLinks(old(store.links), store.now)
      ensures store.refreshTokens == RefreshTokens.DeleteExpired(old(store.refreshTokens), store.now)
    {
      store.DeleteExpiredOAuthStates();
      store.DeleteExpiredVerificationTokens();
      store.DeleteExpiredRefreshTokens(RefreshTokens.GRACE_DAYS);
    }
  }
}
