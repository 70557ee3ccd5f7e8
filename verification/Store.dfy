// The Postgres store (internal/auth/store_postgres.go): one method per SQL statement, and the only place
// where a missing row or a unique violation becomes a domain error.

module Store {
  import opened Core
  import opened AccountTables
  import opened Requests
  import RefreshTokens
  import BrowserFlow

  ghost function UserByEmailIn(users: Users, email: string): Option<UserId> {
    AccountTables.UserByEmail(users, email)
  }

  // One of the two unique indexes refuses the new user or the new identity.
  ghost predicate Clashes(users: Users, identities: Identities, email: string, provider: string, claims: Claims) {
    UserByEmailIn(users, email).Some? || IdentityBySubject(identities, provider, claims.subject).Some?
  }

  class PostgresStore {
    var users: Users
    var identities: Identities
    var links: Links
    var refreshTokens: RefreshTokens.Table
    var oauthStates: map<string, BrowserFlow.Row>
    var now: Time

    // The unique indexes of the schema.
    ghost predicate Valid()
      reads this
    {
      EmailsUnique(users) && SubjectsUnique(identities)
    }

    ghost function Tables(): Db
      reads this
    {
      Db(users, identities, links, refreshTokens, now)
    }

    constructor (now: Time)
      ensures Valid() && Tables() == Db(map[], map[], map[], map[], now) && oauthStates == map[]
    {
      users, identities, links, refreshTokens, oauthStates := map[], map[], map[], map[], map[];
      this.now := now;
    }

    // ----- users -----

    method CreateUser(id: UserId, email: string, password: Option<string>) returns (r: Result<UserId>)
      requires Valid() && id !in users
      modifies this`users
      ensures Valid()
      ensures UserByEmailIn(old(users), email).Some? ==> r == Err(EmailTaken) && users == old(users)
      ensures UserByEmailIn(old(users), email).None? ==>
                r == Ok(id) && users == old(users)[id := User(email, None, password)]
    {
      if exists u :: u in users && SameEmail(users[u].email, email) {
        return Err(EmailTaken);
      }
      users := users[id := User(email, None, password)];
      r := Ok(id);
    }

    method UserByEmail(email: string) returns (r: Result<(UserId, User)>)
      requires Valid()
      ensures r == match UserByEmailIn(users, email) case Some(u) => Ok((u, users[u])) case None => Err(UserNotFound)
    {
      if u :| u in users && SameEmail(users[u].email, email) {
        return Ok((u, users[u]));
      }
      r := Err(UserNotFound);
    }

    // ----- verification_tokens -----

    method CreateVerificationToken(u: UserId, hash: Hash, expiresAt: Time)
      modifies this`links
      ensures links == old(links)[hash := Link(u, None, expiresAt)]
    {
      links := links[hash := Link(u, None, expiresAt)];
    }

    // Burning the link and marking the user are one statement.
    method ConsumeEmailVerification(hash: Hash) returns (r: Result<UserId>)
      requires Valid()
      modifies this`links, this`users
      ensures Valid()
      ensures !Consumable(old(links), hash, now) ==>
                r == Err(TokenNotUsable) && links == old(links) && users == old(users)
      ensures Consumable(old(links), hash, now) ==>
                && r == Ok(old(links)[hash].user)
                && links == Burn(old(links), hash, now)
                && users == MarkVerified(old(users), old(links)[hash].user, now)
    {
      if !Consumable(links, hash, now) {
        return Err(TokenNotUsable);
      }
      var u := links[hash].user;
      links := links[hash := links[hash].(usedAt := Some(now))];
      if u in users && users[u].verifiedAt.None? {
        users := users[u := users[u].(verifiedAt := Some(now))];
      }
      r := Ok(u);
    }

    method InvalidateEmailVerificationTokens(u: UserId)
      modifies this`links
      ensures links == Invalidate(old(links), u, now)
    {
      links := map h | h in links :: RetireLink(links[h], u, now);
    }

    method DeleteExpiredVerificationTokens()
      modifies this`links
      ensures links == DeleteExpiredLinks(old(links), now)
    {
      links := map h | h in links && links[h].expiresAt > now :: links[h];
    }

    // ----- refresh_tokens -----

    method CreateRefreshToken(u: UserId, hash: Hash, f: FamilyId, p: Platform, expiresAt: Time)
      modifies this`refreshTokens
      ensures refreshTokens == old(refreshTokens)[hash :=
                RefreshTokens.Row(u, f, if p == "" then None else Some(p), None, None, expiresAt)]
    {
      var platform := None;
      if p != "" {
        platform := Some(p);
      }
      refreshTokens := refreshTokens[hash := RefreshTokens.Row(u, f, platform, None, None, expiresAt)];
    }

    method UseRefreshToken(hash: Hash) returns (r: Result<(UserId, FamilyId)>)
      modifies this`refreshTokens
      ensures !RefreshTokens.Spendable(old(refreshTokens), hash, now) ==>
                r == Err(RefreshInvalid) && refreshTokens == old(refreshTokens)
      ensures RefreshTokens.Spendable(old(refreshTokens), hash, now) ==>
                && r == Ok((old(refreshTokens)[hash].user, old(refreshTokens)[hash].family))
                && refreshTokens == RefreshTokens.Use(old(refreshTokens), hash, now)
    {
      if !RefreshTokens.Spendable(refreshTokens, hash, now) {
        return Err(RefreshInvalid);
      }
      refreshTokens := refreshTokens[hash := refreshTokens[hash].(usedAt := Some(now))];
      r := Ok((refreshTokens[hash].user, refreshTokens[hash].family));
    }

    method RefreshTokenByHash(hash: Hash) returns (r: Result<(FamilyId, Option<Time>)>)
      ensures r == if hash in refreshTokens then Ok((refreshTokens[hash].family, refreshTokens[hash].usedAt))
                   else Err(RefreshInvalid)
    {
      if hash !in refreshTokens {
        return Err(RefreshInvalid);
      }
      r := Ok((refreshTokens[hash].family, refreshTokens[hash].usedAt));
    }

    method RevokeRefreshFamily(f: FamilyId)
      modifies this`refreshTokens
      ensures refreshTokens == RefreshTokens.RevokeFamily(old(refreshTokens), f, now)
    {
      refreshTokens := map h | h in refreshTokens :: RefreshTokens.RevokeRow(refreshTokens[h], f, now);
    }

    method DeleteExpiredRefreshTokens(graceDays: nat)
      modifies this`refreshTokens
      ensures graceDays == RefreshTokens.GRACE_DAYS ==>
                refreshTokens == RefreshTokens.DeleteExpired(old(refreshTokens), now)
      ensures forall h :: h in refreshTokens <==>
                h in old(refreshTokens) && old(refreshTokens)[h].expiresAt > now - graceDays * DAY
      ensures forall h <- refreshTokens :: refreshTokens[h] == old(refreshTokens)[h]
    {
      refreshTokens := map h |
        h in refreshTokens && refreshTokens[h].expiresAt > now - graceDays * DAY :: refreshTokens[h];
    }

    // ----- auth_identities -----

    method IdentityByProviderSubject(provider: string, subject: string) returns (r: Result<Identity>)
      requires Valid()
      ensures r == match IdentityBySubject(identities, provider, subject)
                   case Some(i) => Ok(identities[i])
                   case None => Err(IdentityNotFound)
    {
      if i :| i in identities && Names(identities[i], provider, subject) {
        return Ok(identities[i]);
      }
      r := Err(IdentityNotFound);
    }

    // The unique index on (provider, subject) is checked before the foreign key on the user.
    method CreateIdentity(u: UserId, id: IdentityId, provider: string, claims: Claims) returns (r: Result<IdentityId>)
      requires Valid() && id !in identities
      modifies this`identities
      ensures Valid()
      ensures IdentityBySubject(old(identities), provider, claims.subject).Some? ==>
                r == Err(IdentityAlreadyLinked) && identities == old(identities)
      ensures IdentityBySubject(old(identities), provider, claims.subject).None? && u !in users ==>
                r == Err(StoreFailure) && identities == old(identities)
      ensures IdentityBySubject(old(identities), provider, claims.subject).None? && u in users ==>
                r == Ok(id) && identities == AccountTables.CreateIdentity(old(identities), id, u, provider, claims)
    {
      if exists i :: i in identities && Names(identities[i], provider, claims.subject) {
        return Err(IdentityAlreadyLinked);
      }
      if u !in users {
        return Err(StoreFailure);
      }
      identities := identities[id := Identity(u, provider, claims.subject, claims.email)];
      r := Ok(id);
    }

    // A clash on either unique index inserts neither row.
    method CreateUserWithIdentity(id: UserId, email: string, identity: IdentityId, provider: string, claims: Claims)
        returns (r: Result<UserId>)
      requires Valid() && id !in users && identity !in identities
      modifies this`users, this`identities
      ensures Valid()
      ensures Clashes(old(users), old(identities), email, provider, claims) ==>
                r == Err(EmailTaken) && users == old(users) && identities == old(identities)
      ensures !Clashes(old(users), old(identities), email, provider, claims) ==>
                && r == Ok(id)
                && users == old(users)[id := User(email, Some(now), None)]
                && identities == AccountTables.CreateIdentity(old(identities), identity, id, provider, claims)
    {
      if (exists u :: u in users && SameEmail(users[u].email, email))
         || (exists i :: i in identities && Names(identities[i], provider, claims.subject)) {
        return Err(EmailTaken);
      }
      users := users[id := User(email, Some(now), None)];
      identities := identities[identity := Identity(id, provider, claims.subject, claims.email)];
      r := Ok(id);
    }

    method DeleteIdentity(id: IdentityId, u: UserId) returns (r: Result<IdentityId>)
      requires Valid()
      modifies this`identities
      ensures Valid()
      ensures !Owns(old(identities), u, id) ==> r == Err(IdentityNotFound) && identities == old(identities)
      ensures Owns(old(identities), u, id) ==> r == Ok(id) && identities == old(identities) - {id}
    {
      if !Owns(identities, u, id) {
        return Err(IdentityNotFound);
      }
      identities := identities - {id};
      r := Ok(id);
    }

    method CountMethods(u: UserId) returns (n: nat)
      ensures n == CountAuthMethods(users, identities, u)
    {
      n := |IdentitiesOf(identities, u)|;
      if u in users && users[u].password.Some? {
        n := n + 1;
      }
    }

    // ----- oauth_states -----

    method CreateOAuthState(state: string, ticket: BrowserFlow.Ticket, expiresAt: Time)
      modifies this`oauthStates
      ensures oauthStates == old(oauthStates)[state := BrowserFlow.Row(ticket, expiresAt)]
    {
      oauthStates := oauthStates[state := BrowserFlow.Row(ticket, expiresAt)];
    }

    // Reading deletes.
    method ConsumeOAuthState(state: string) returns (r: Result<BrowserFlow.Ticket>)
      modifies this`oauthStates
      ensures state in old(oauthStates) && old(oauthStates)[state].expiresAt > now ==>
                r == Ok(old(oauthStates)[state].ticket) && oauthStates == old(oauthStates) - {state}
      ensures !(state in old(oauthStates) && old(oauthStates)[state].expiresAt > now) ==>
                r == Err(OAuthStateInvalid) && oauthStates == old(oauthStates)
    {
      if state !in oauthStates || oauthStates[state].expiresAt <= now {
        return Err(OAuthStateInvalid);
      }
      r := Ok(oauthStates[state].ticket);
      oauthStates := oauthStates - {state};
    }

    method DeleteExpiredOAuthStates()
      modifies this`oauthStates
      ensures oauthStates == BrowserFlow.DeleteExpired(old(oauthStates), now)
    {
      oauthStates := map x | x in oauthStates && oauthStates[x].expiresAt > now :: oauthStates[x];
    }
  }
}
