// Whole sequences of requests, as a person makes them: each theorem spans several use cases.

module Journeys {
  import opened Core
  import opened Text
  import opened AccountTables
  import opened RefreshTokens
  import opened Requests
  import Accounts
  import Rotation
  import Password

  // The user an address finds, when addresses are unique.
  lemma FoundByAddress(users: Users, u: UserId, email: string)
    requires EmailsUnique(users) && u in users && SameEmail(users[u].email, email)
    ensures UserByEmail(users, email) == Some(u)
  {
    var v := UserByEmail(users, email);
    assert v.Some? && SameEmail(users[v.value].email, users[u].email);
  }

  // ----- Signing up with a password -----

  function SignedUp(argon: Password.Argon, email: string, password: string, salt: Password.Bytes): User {
    User(NormalizeEmail(email), None, Some(Password.HashPassword(argon, password, salt)))
  }

  lemma RegisteredUserIsFound(users: Users, id: UserId, user: User, email: string, spelling: string)
    requires EmailsUnique(users) && id !in users && UserByEmail(users, NormalizeEmail(email)).None?
    requires user.email == NormalizeEmail(email) && NormalizeEmail(spelling) == NormalizeEmail(email)
    ensures EmailsUnique(users[id := user]) && UserByEmail(users[id := user], NormalizeEmail(spelling)) == Some(id)
  {
    NormalizeEmailIsIdempotent(email);
    hide NormalizeEmail, UserByEmail;
    FoundByAddress(users[id := user], id, NormalizeEmail(spelling));
  }

  // How a login is answered once its address finds the account that registered it.
  lemma LoginAfterSignUp(db: Db, c: Config, argon: Password.Argon, email: string, password: string,
                         salt: Password.Bytes,
                         id: UserId, spelling: string, attempt: string, p: Platform, drawn: Drawn)
    requires UserByEmail(db.users, NormalizeEmail(spelling)) == Some(id)
    requires db.users[id] == SignedUp(argon, email, password, salt).(verifiedAt := db.users[id].verifiedAt)
    requires |Password.CurrentKey(argon, password, salt)| == Password.ARGON_KEY_LEN
    ensures Login(db, c, argon, spelling, attempt, p, drawn)
            == if Password.CurrentKey(argon, attempt, salt) != Password.CurrentKey(argon, password, salt) then
                 (db, Err(InvalidCredentials))
               else if db.users[id].verifiedAt.None? then (db, Err(EmailNotVerified))
               else IssueSession(db, c, id, drawn.family, p, drawn.token)
  {
    Password.HashThenVerify(argon, password, attempt, salt);
    hide Password.VerifyPassword, Password.HashPassword, NormalizeEmail, UserByEmail;
  }

  // Register, then follow the link, then log in: the account opens exactly for passwords Argon2 takes
  // for the registered one, under any spelling of the address, and not before the link was followed.
  lemma SignUpJourney(db: Db, c: Config, argon: Password.Argon, ttl: Time, email: string, password: string,
                      salt: Password.Bytes,
                      id: UserId, link: string, spelling: string, attempt: string, p: Platform, drawn: Drawn)
    requires EmailsUnique(db.users) && id !in db.users && UserByEmail(db.users, NormalizeEmail(email)).None?
    requires NormalizeEmail(spelling) == NormalizeEmail(email)
    requires |Password.CurrentKey(argon, password, salt)| == Password.ARGON_KEY_LEN && ttl > 0 && link != ""
    ensures var right := Password.CurrentKey(argon, attempt, salt) == Password.CurrentKey(argon, password, salt);
            var (db1, registered) := Register(db, ttl, email, Password.HashPassword(argon, password, salt), id, link);
            var (db2, followed) := VerifyEmail(db1, link);
            && registered == Ok(id) && followed == Ok(id)
            && Login(db1, c, argon, spelling, attempt, p, drawn)
               == (db1, Err(if right then EmailNotVerified else InvalidCredentials))
            && (Login(db2, c, argon, spelling, attempt, p, drawn).1
                == if right then Ok(Session(id, drawn.token, Rotation.Ttl(c, p))) else Err(InvalidCredentials))
            && VerifyEmail(db2, link) == (db2, Err(TokenNotUsable))
            && Register(db2, ttl, spelling, Password.HashPassword(argon, attempt, salt), drawn.user, link).1
               == Err(EmailTaken)
  {
    hide NormalizeEmail, UserByEmail, Password.HashPassword, EmailsUnique, Login;
    var user := SignedUp(argon, email, password, salt);
    var db1 := Register(db, ttl, email, Password.HashPassword(argon, password, salt), id, link).0;
    RegisteredUserIsFound(db.users, id, user, email, spelling);
    LoginAfterSignUp(db1, c, argon, email, password, salt, id, spelling, attempt, p, drawn);
    var db2 := VerifyEmail(db1, link).0;
    var verified := user.(verifiedAt := Some(db.now));
    assert db2.users == db.users[id := verified];
    RegisteredUserIsFound(db.users, id, verified, email, spelling);
    LoginAfterSignUp(db2, c, argon, email, password, salt, id, spelling, attempt, p, drawn);
  }

  lemma RegistrationCreates(s: Accounts.State, r: RequestId, id: UserId, email: string, password: string)
    requires UserByEmail(s.tables.users, NormalizeEmail(email)).None?
    requires Accounts.Enabled(s, Accounts.Register(r, id, email, password))
    ensures var users := Accounts.Step(s, Accounts.Register(r, id, email, password)).tables.users;
            id in users && users[id].email == NormalizeEmail(email)
  {
    hide UserByEmail, NormalizeEmail;
  }

  // In every reachable state an unproven address is found, and no provider account is its user's.
  lemma UnprovenIsNotJoined(s: Accounts.State, id: UserId, provider: string, claims: Claims)
    requires Accounts.Inv(s) && id in s.tables.users && !Verified(s.tables.users[id])
    requires s.tables.users[id].email == NormalizeEmail(claims.email)
    ensures UserByEmail(s.tables.users, NormalizeEmail(claims.email)) == Some(id)
    ensures var i := IdentityBySubject(s.tables.identities, provider, claims.subject);
            i.Some? ==> s.tables.identities[i.value].user != id
  {
    hide Rotation.Inv, NormalizeEmail;
    hide Accounts.OriginsInv, Accounts.FlightInv, Accounts.LinksInv, Accounts.ProvenanceInv;
    FoundByAddress(s.tables.users, id, NormalizeEmail(claims.email));
  }

  // Registering somebody else's address gains nothing.  Whatever happens after the registration, as long
  // as the address is not proven its real owner's provider sign-in under it never joins the squatter's
  // account; with a provider account that is not linked yet it is refused, and nothing is stored.
  lemma SquatterInheritsNothing(s: Accounts.State, r: RequestId, id: UserId, email: string, password: string,
                                run: seq<Accounts.Action>, c: Config, provider: string, claims: Claims, p: Platform,
                                drawn: Drawn)
    requires Accounts.Inv(s) && UserByEmail(s.tables.users, NormalizeEmail(email)).None?
    requires Accounts.Enabled(s, Accounts.Register(r, id, email, password))
    requires Accounts.Runs(Accounts.Step(s, Accounts.Register(r, id, email, password)), run)
    requires var users := Accounts.Exec(Accounts.Step(s, Accounts.Register(r, id, email, password)), run).tables.users;
             id in users ==> !Verified(users[id])
    requires claims.emailVerified && claims.subject != "" && claims.email != ""
    requires NormalizeEmail(claims.email) == NormalizeEmail(email)
    ensures var db := DbOf(Accounts.Exec(Accounts.Step(s, Accounts.Register(r, id, email, password)), run));
            var (after, answer) := SignIn(db, c, provider, claims, p, drawn);
            && id in db.users
            && (answer.Ok? ==> answer.value.user != id)
            && (IdentityBySubject(db.identities, provider, claims.subject).None? ==>
                  after == db && answer == Err(LinkNeedsVerifiedEmail))
  {
    var s1 := Accounts.Step(s, Accounts.Register(r, id, email, password));
    RegistrationCreates(s, r, id, email, password);
    hide Accounts.Inv, Accounts.Step, Accounts.Enabled, NormalizeEmail, UserByEmail;
    Accounts.StepKeepsInv(s, Accounts.Register(r, id, email, password));
    Accounts.ReachableInv(s1, run);
    hide Accounts.Runs, Accounts.Exec;
    UnprovenIsNotJoined(Accounts.Exec(s1, run), id, provider, claims);
  }

  // ----- Signing in with a provider -----

  lemma IdentityFound(identities: Identities, i: IdentityId)
    requires SubjectsUnique(identities) && i in identities
    ensures IdentityBySubject(identities, identities[i].provider, identities[i].subject) == Some(i)
  {
    var j := IdentityBySubject(identities, identities[i].provider, identities[i].subject);
    assert Names(identities[i], identities[i].provider, identities[i].subject);
    assert j.Some? && Names(identities[j.value], identities[i].provider, identities[i].subject);
  }

  lemma OnlyIdentityFound(identities: Identities, provider: string, subject: string)
    requires forall i <- identities :: !Names(identities[i], provider, subject)
    ensures IdentityBySubject(identities, provider, subject).None?
  {
  }

  // An account made by a provider sign-in keeps its one identity: unlinking it is refused until another
  // one is linked, and then the account is reached through the new one only.
  lemma ProviderAccountJourney(db: Db, c: Config, provider: string, claims: Claims, p: Platform, drawn: Drawn,
                               other: string, second: Claims, id: IdentityId)
    requires EmailsUnique(db.users) && SubjectsUnique(db.identities)
    requires forall i <- db.identities :: db.identities[i].user in db.users
    requires drawn.user !in db.users && drawn.identity !in db.identities && id !in db.identities && id != drawn.identity
    requires claims.emailVerified && claims.subject != "" && claims.email != "" && second.emailVerified
    requires UserByEmail(db.users, NormalizeEmail(claims.email)).None?
    requires IdentityBySubject(db.identities, provider, claims.subject).None?
    requires IdentityBySubject(db.identities, other, second.subject).None?
    requires (other, second.subject) != (provider, claims.subject)
    ensures var (db1, session) := SignIn(db, c, provider, claims, p, drawn);
            var (db2, linked) := LinkProvider(db1, drawn.user, other, second, id);
            var (db3, unlinked) := Unlink(db2, drawn.user, drawn.identity);
            && session.Ok? && session.value.user == drawn.user
            && Unlink(db1, drawn.user, drawn.identity) == (db1, Err(LastAuthMethod))
            && linked == Ok(id) && unlinked == Ok(drawn.identity)
            && IdentityBySubject(db3.identities, other, second.subject) == Some(id)
            && IdentityBySubject(db3.identities, provider, claims.subject).None?
            && Unlink(db3, drawn.user, id) == (db3, Err(LastAuthMethod))
  {
    hide NormalizeEmail, UserByEmail, IdentityBySubject;
    var u := drawn.user;
    var db1 := SignIn(db, c, provider, claims, p, drawn).0;
    assert db1.users == db.users[u := User(NormalizeEmail(claims.email), Some(db.now), None)];
    assert db1.identities == CreateIdentity(db.identities, drawn.identity, u, provider, claims);
    hide SignIn;
    assert IdentitiesOf(db1.identities, u) == {drawn.identity};
    OnlyIdentityFound(db1.identities, other, second.subject);
    var db2 := LinkProvider(db1, u, other, second, id).0;
    assert db2.users == db1.users && db2.identities == CreateIdentity(db1.identities, id, u, other, second);
    assert IdentitiesOf(db2.identities, u) == {drawn.identity, id};
    var db3 := Unlink(db2, u, drawn.identity).0;
    assert db3.identities == db2.identities - {drawn.identity};
    assert IdentitiesOf(db3.identities, u) == {id};
    OnlyIdentityFound(db3.identities, provider, claims.subject);
    assert Names(db3.identities[id], other, second.subject);
    IdentityFound(db3.identities, id);
  }

  // ----- Using, replaying and ending a session -----

  predicate NoneSpendable(t: Table, f: FamilyId, now: Time) {
    forall h <- t :: t[h].family == f ==> !Spendable(t, h, now)
  }

  lemma RevokedIsUnspendable(t: Table, f: FamilyId, now: Time)
    ensures NoneSpendable(RevokeFamily(t, f, now), f, now) && RevokeFamily(t, f, now).Keys == t.Keys
  {
  }

  // A refresh moves the session on to the new token, for the same user and family; presenting the old
  // one again ends the session for everybody who holds any of its tokens.
  lemma ReplayJourney(db: Db, c: Config, plain: string, p: Platform, next: string, again: Platform, unused: string)
    requires plain != "" && next != "" && next != plain && Spendable(db.refresh, Sha256(plain), db.now)
    requires Rotation.Ttl(c, p) > 0
    ensures var f := db.refresh[Sha256(plain)].family;
            var (db1, session) := Refresh(db, c, plain, p, next);
            var (db2, refused) := Refresh(db1, c, plain, again, unused);
            && session == Ok(Session(db.refresh[Sha256(plain)].user, next, Rotation.Ttl(c, p)))
            && Refresh(db1, c, next, again, unused).1.Ok?
            && db1.refresh[Sha256(next)].family == f && db1.refresh[Sha256(next)].user == db.refresh[Sha256(plain)].user
            && refused == Err(RefreshInvalid) && NoneSpendable(db2.refresh, f, db2.now)
            && Refresh(db2, c, next, again, unused).1 == Err(RefreshInvalid)
  {
    var db1 := Refresh(db, c, plain, p, next).0;
    assert db1.refresh[Sha256(plain)] == db.refresh[Sha256(plain)].(usedAt := Some(db.now));
    assert Spendable(db1.refresh, Sha256(next), db1.now);
    RevokedIsUnspendable(db1.refresh, db.refresh[Sha256(plain)].family, db.now);
    hide RevokeFamily;
  }

  // Leaving with any stored token of the session, even a spent one, ends all of it.
  lemma LogoutJourney(db: Db, c: Config, plain: string, other: string, p: Platform, next: string)
    requires plain != "" && Sha256(plain) in db.refresh && Sha256(other) in db.refresh
    requires db.refresh[Sha256(other)].family == db.refresh[Sha256(plain)].family
    ensures Refresh(Logout(db, plain), c, other, p, next).1 == Err(RefreshInvalid)
    ensures NoneSpendable(Logout(db, plain).refresh, db.refresh[Sha256(plain)].family, db.now)
    ensures forall h <- db.refresh :: db.refresh[h].family != db.refresh[Sha256(plain)].family ==>
              (Spendable(Logout(db, plain).refresh, h, db.now) <==> Spendable(db.refresh, h, db.now))
  {
    RevokedIsUnspendable(db.refresh, db.refresh[Sha256(plain)].family, db.now);
    var f := db.refresh[Sha256(plain)].family;
    assert RevokeRow(db.refresh[Sha256(other)], f, db.now).family == f;
  }
}
