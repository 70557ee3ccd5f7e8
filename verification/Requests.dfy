// Each use case as one function from the tables before a request to the tables and the answer after it.
// Use cases about addresses and links are read off the statements of the account machine.

module Requests {
  import opened Core
  import opened Text
  import opened AccountTables
  import opened RefreshTokens
  import Accounts
  import Rotation
  import VerificationLinks
  import Password

  datatype Db = Db(users: Users, identities: Identities, links: Links, refresh: Table, now: Time)

  // What a client receives: an access token for `user`, and the only copy of the refresh token.
  datatype Session = Session(user: UserId, refreshToken: string, refreshTtl: Time)

  // Identifiers and tokens drawn while a request runs.
  datatype Drawn = Drawn(user: UserId, identity: IdentityId, family: FamilyId, token: string)

  type Config = Rotation.Config

  // The tables of a server, and a server with these tables, no request in flight and no history.
  ghost function DbOf(s: Accounts.State): Db {
    Db(s.tables.users, s.tables.identities, s.tables.links, s.sessions.rows, s.sessions.now)
  }

  ghost function ServerOf(db: Db, linkTtl: Time): Accounts.State {
    Accounts.Init(Rotation.Config(0, 0), linkTtl, db.now).(
      tables := Accounts.Tables(db.users, db.identities, db.links),
      sessions := Rotation.Init(Rotation.Config(0, 0), db.now).(rows := db.refresh))
  }

  // ----- Sessions -----

  function NewRow(db: Db, c: Config, u: UserId, f: FamilyId, p: Platform): Row {
    Row(u, f, if p == "" then None else Some(p), None, None, db.now + Rotation.Ttl(c, p))
  }

  function IssueSession(db: Db, c: Config, u: UserId, f: FamilyId, p: Platform, token: string): (Db, Result<Session>) {
    (db.(refresh := db.refresh[Sha256(token) := NewRow(db, c, u, f, p)]), Ok(Session(u, token, Rotation.Ttl(c, p))))
  }

  function Refresh(db: Db, c: Config, plain: string, p: Platform, token: string): (Db, Result<Session>) {
    var h := Sha256(plain);
    if plain == "" then (db, Err(RefreshInvalid))
    else if Spendable(db.refresh, h, db.now) then
      IssueSession(db.(refresh := Use(db.refresh, h, db.now)), c, db.refresh[h].user, db.refresh[h].family, p, token)
    else if h in db.refresh && db.refresh[h].usedAt.Some? then
      (db.(refresh := RevokeFamily(db.refresh, db.refresh[h].family, db.now)), Err(RefreshInvalid))
    else (db, Err(RefreshInvalid))
  }

  function Logout(db: Db, plain: string): Db {
    var h := Sha256(plain);
    if plain == "" || h !in db.refresh then db
    else db.(refresh := RevokeFamily(db.refresh, db.refresh[h].family, db.now))
  }

  // ----- Signing in -----

  ghost function Login(db: Db, c: Config, argon: Password.Argon, email: string, password: string, p: Platform,
                       drawn: Drawn): (Db, Result<Session>)
  {
    var u := UserByEmail(db.users, NormalizeEmail(email));
    if u.None? || !HasPassword(db.users[u.value]) then (db, Err(InvalidCredentials))
    else
      var ok := Password.VerifyPassword(argon, password, db.users[u.value].password.value);
      if ok.Err? then (db, Err(ok.error))
      else if !ok.value then (db, Err(InvalidCredentials))
      else if !Verified(db.users[u.value]) then (db, Err(EmailNotVerified))
      else IssueSession(db, c, u.value, drawn.family, p, drawn.token)
  }

  ghost function SignIn(db: Db, c: Config, provider: string, claims: Claims, p: Platform,
                        drawn: Drawn): (Db, Result<Session>)
  {
    if !claims.emailVerified then (db, Err(ProviderEmailUnverified))
    else if claims.subject == "" || claims.email == "" then (db, Err(ProviderClaimsIncomplete))
    else
      var email := NormalizeEmail(claims.email);
      var i := IdentityBySubject(db.identities, provider, claims.subject);
      var u := UserByEmail(db.users, email);
      if i.Some? then IssueSession(db, c, db.identities[i.value].user, drawn.family, p, drawn.token)
      else if u.None? then
        IssueSession(
          db.(users := db.users[drawn.user := User(email, Some(db.now), None)],
              identities := CreateIdentity(db.identities, drawn.identity, drawn.user, provider, claims)),
          c, drawn.user, drawn.family, p, drawn.token)
      else if !Verified(db.users[u.value]) then (db, Err(LinkNeedsVerifiedEmail))
      else
        IssueSession(db.(identities := CreateIdentity(db.identities, drawn.identity, u.value, provider, claims)),
                     c, u.value, drawn.family, p, drawn.token)
  }

  // ----- Addresses, links and identities -----

  ghost function Register(db: Db, ttl: Time, email: string, hash: string, id: UserId, link: string): (Db,
                          Result<UserId>) {
    (DbOf(VerificationLinks.RegisterAll(ServerOf(db, ttl), 0, id, email, hash, Some(Sha256(link)))),
     if UserByEmail(db.users, NormalizeEmail(email)).Some? then Err(EmailTaken) else Ok(id))
  }

  ghost function Resend(db: Db, ttl: Time, email: string, link: string): Db {
    DbOf(VerificationLinks.ResendAll(ServerOf(db, ttl), 0, email, Some(Sha256(link))))
  }

  ghost function VerifyEmail(db: Db, plain: string): (Db, Result<UserId>) {
    var h := Sha256(plain);
    if plain == "" || !Consumable(db.links, h, db.now) then (db, Err(TokenNotUsable))
    else (DbOf(Accounts.VerifyStep(ServerOf(db, 0), h)), Ok(db.links[h].user))
  }

  ghost function LinkProvider(db: Db, u: UserId, provider: string, claims: Claims,
                              id: IdentityId): (Db, Result<IdentityId>)
  {
    (DbOf(Accounts.LinkSignedInStep(ServerOf(db, 0), u, provider, claims, id)),
     if !claims.emailVerified then Err(ProviderEmailUnverified)
     else if IdentityBySubject(db.identities, provider, claims.subject).Some? then Err(IdentityAlreadyLinked)
     else if u !in db.users then Err(StoreFailure)
     else Ok(id))
  }

  function Unlink(db: Db, u: UserId, id: IdentityId): (Db, Result<IdentityId>) {
    if CountAuthMethods(db.users, db.identities, u) <= 1 then (db, Err(LastAuthMethod))
    else if !Owns(db.identities, u, id) then (db, Err(IdentityNotFound))
    else (db.(identities := db.identities - {id}), Ok(id))
  }
}
