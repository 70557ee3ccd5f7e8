// What each request answers and what it leaves in the tables, decided case by case from the columns of
// the tables, the characters of an address and the literals of the protocol.

module Answers {
  import opened Core
  import opened AccountTables
  import opened RefreshTokens
  import opened Requests
  import opened Text
  import Accounts
  import Password
  import RequestRuns
  import Rotation
  import VerificationLinks

  // ----- Addresses -----

  // Addresses as the server stores them: clean, and each of one user.
  ghost predicate Stored(users: Users) {
    && (forall u <- users :: Clean(users[u].email))
    && (forall u, v | u in users && v in users :: users[u].email == users[v].email ==> u == v)
  }

  // The user's address, in whatever spelling.
  ghost predicate OwnsAddress(users: Users, u: UserId, email: string) {
    u in users && Respelled(users[u].email, email)
  }

  lemma EveryReachableStateIsStored(s: Accounts.State)
    requires Accounts.Inv(s)
    ensures Stored(s.tables.users)
  {
    hide Rotation.Inv, Clean, ToLower;
    var users := s.tables.users;
    forall u, v | u in users && v in users && users[u].email == users[v].email ensures u == v {
      assert SameEmail(users[u].email, users[v].email);
    }
  }

  lemma OwnerHasNormalized(users: Users, u: UserId, email: string)
    requires Stored(users) && u in users
    ensures OwnsAddress(users, u, email) <==> users[u].email == NormalizeEmail(email)
    ensures SameEmail(users[u].email, NormalizeEmail(email)) <==> users[u].email == NormalizeEmail(email)
  {
    CleanIsUnchanged(users[u].email);
    NormalizedAlikeExactlyWhenRespelled(users[u].email, email);
    NormalizedIsClean(email);
    CleanIsUnchanged(NormalizeEmail(email));
    hide NormalizeEmail, Respelled, Clean, ToLower;
  }

  // The look-up finds the one owner of an address in whatever spelling, and nobody only if there is none.
  lemma LookupFindsTheOwner(users: Users, email: string)
    requires Stored(users)
    ensures var found := UserByEmail(users, NormalizeEmail(email));
            && (forall u: UserId :: found == Some(u) <==> OwnsAddress(users, u, email))
            && (found.None? <==> forall u :: !OwnsAddress(users, u, email))
  {
    hide NormalizeEmail, Respelled, Clean, SameEmail;
    forall u | u in users
      ensures OwnsAddress(users, u, email) <==> users[u].email == NormalizeEmail(email)
      ensures SameEmail(users[u].email, NormalizeEmail(email)) <==> users[u].email == NormalizeEmail(email)
    {
      OwnerHasNormalized(users, u, email);
    }
  }

  // ----- Sessions -----

  // How long a session of this platform lives: web or mobile.
  predicate LivesFor(c: Config, p: string, life: Time) {
    (p == "web" ==> life == c.ttlWeb) && (p != "web" ==> life == c.ttlMobile)
  }

  // The row of a token issued now.
  predicate NewToken(row: Row, c: Config, u: UserId, f: FamilyId, p: string, now: Time) {
    && row.user == u && row.family == f
    && (p == "" ==> row.platform == None) && (p != "" ==> row.platform == Some(p))
    && row.usedAt == None && row.revokedAt == None
    && LivesFor(c, p, row.expiresAt - now)
  }

  // Exactly one token was added to what `before` stores, and the answer hands it over.
  predicate HandsOver(before: Table, after: Table, answer: Result<Session>, c: Config, u: UserId, f: FamilyId,
                      p: string, token: string, now: Time)
  {
    && after.Keys == before.Keys + {Sha256(token)}
    && (forall h <- before :: h != Sha256(token) ==> after[h] == before[h])
    && NewToken(after[Sha256(token)], c, u, f, p, now)
    && answer.Ok? && answer.value.user == u && answer.value.refreshToken == token
    && LivesFor(c, p, answer.value.refreshTtl)
  }

  lemma IssuingHandsOver(db: Db, c: Config, u: UserId, f: FamilyId, p: Platform, token: string)
    ensures var (after, answer) := IssueSession(db, c, u, f, p, token);
            && HandsOver(db.refresh, after.refresh, answer, c, u, f, p, token, db.now)
            && after == db.(refresh := after.refresh)
  {
  }

  predicate Usable(t: Table, plain: string, now: Time) {
    && plain != "" && Sha256(plain) in t
    && t[Sha256(plain)].usedAt == None && t[Sha256(plain)].revokedAt == None && now < t[Sha256(plain)].expiresAt
  }

  // A usable token is spent, now, and its successor handed over, in the same family for the same user.
  lemma RefreshOfUsable(db: Db, c: Config, plain: string, p: Platform, token: string)
    requires Usable(db.refresh, plain, db.now)
    ensures var (after, answer) := Refresh(db, c, plain, p, token);
            var h, row := Sha256(plain), db.refresh[Sha256(plain)];
            var spent := db.refresh[h := Row(row.user, row.family, row.platform, Some(db.now), None, row.expiresAt)];
            && HandsOver(spent, after.refresh, answer, c, row.user, row.family, p, token, db.now)
            && after == db.(refresh := after.refresh)
  {
    var h := Sha256(plain);
    IssuingHandsOver(db.(refresh := Use(db.refresh, h, db.now)), c, db.refresh[h].user, db.refresh[h].family, p, token);
    hide IssueSession, HandsOver;
  }

  // Every other token is refused.  One that was used takes its family with it: each of its rows is revoked
  // from now on, or stays revoked as it was, and nothing else changes.
  predicate FamilyEnds(before: Table, after: Table, f: FamilyId, now: Time) {
    && after.Keys == before.Keys
    && (forall h <- before ::
          && (before[h].family != f || before[h].revokedAt != None ==> after[h] == before[h])
          && (before[h].family == f && before[h].revokedAt == None ==>
                var row := before[h];
                after[h] == Row(row.user, f, row.platform, row.usedAt, Some(now), row.expiresAt)))
  }

  lemma RefreshOfUnusable(db: Db, c: Config, plain: string, p: Platform, token: string)
    requires !Usable(db.refresh, plain, db.now)
    ensures var (after, answer) := Refresh(db, c, plain, p, token);
            && answer == Err(RefreshInvalid) && after == db.(refresh := after.refresh)
            && if plain != "" && Sha256(plain) in db.refresh && db.refresh[Sha256(plain)].usedAt != None then
                 FamilyEnds(db.refresh, after.refresh, db.refresh[Sha256(plain)].family, db.now)
               else after == db
  {
  }

  lemma LogoutEndsTheFamily(db: Db, plain: string)
    ensures var after := Logout(db, plain);
            && after == db.(refresh := after.refresh)
            && if plain != "" && Sha256(plain) in db.refresh then
                 FamilyEnds(db.refresh, after.refresh, db.refresh[Sha256(plain)].family, db.now)
               else after == db
  {
  }

  // ----- Password login -----

  // An unknown address, an account without a password and a wrong password are one answer, and nothing
  // changes.
  lemma LoginOfNobody(db: Db, c: Config, argon: Password.Argon, email: string, password: string, p: Platform,
                      drawn: Drawn)
    requires Stored(db.users) && forall u :: !OwnsAddress(db.users, u, email)
    ensures Login(db, c, argon, email, password, p, drawn) == (db, Err(InvalidCredentials))
  {
    LookupFindsTheOwner(db.users, email);
    hide NormalizeEmail, UserByEmail, Stored, OwnsAddress;
  }

  lemma LoginOfOwner(db: Db, c: Config, argon: Password.Argon, email: string, password: string, p: Platform,
                     drawn: Drawn, u: UserId)
    requires Stored(db.users) && OwnsAddress(db.users, u, email)
    ensures var (after, answer) := Login(db, c, argon, email, password, p, drawn);
            var user := db.users[u];
            if user.password == None || user.password == Some("") then after == db && answer == Err(InvalidCredentials)
            else
              match Password.VerifyPassword(argon, password, user.password.value)
              case Err(e) => after == db && answer == Err(e)
              case Ok(false) => after == db && answer == Err(InvalidCredentials)
              case Ok(true) =>
                if user.verifiedAt == None then after == db && answer == Err(EmailNotVerified)
                else
                  && HandsOver(db.refresh, after.refresh, answer, c, u, drawn.family, p, drawn.token, db.now)
                  && after == db.(refresh := after.refresh)
  {
    LookupFindsTheOwner(db.users, email);
    IssuingHandsOver(db, c, u, drawn.family, p, drawn.token);
    hide NormalizeEmail, UserByEmail, Stored, OwnsAddress, IssueSession, HandsOver, Password.VerifyPassword;
  }

  // So a stranger cannot tell whether an address is registered.
  lemma LoginIsNoOracle(db: Db, c: Config, argon: Password.Argon, known: string, unknown: string, password: string,
                        p: Platform, drawn: Drawn, u: UserId)
    requires Stored(db.users) && OwnsAddress(db.users, u, known) && forall v :: !OwnsAddress(db.users, v, unknown)
    requires db.users[u].password.Some? && db.users[u].password != Some("")
    requires Password.VerifyPassword(argon, password, db.users[u].password.value) == Ok(false)
    ensures Login(db, c, argon, known, password, p, drawn) == Login(db, c, argon, unknown, password, p, drawn)
  {
    LoginOfOwner(db, c, argon, known, password, p, drawn, u);
    LoginOfNobody(db, c, argon, unknown, password, p, drawn);
    hide Login, Stored, OwnsAddress, Password.VerifyPassword;
  }

  // ----- Provider sign-in -----

  ghost predicate Linked(identities: Identities, i: IdentityId, provider: string, subject: string) {
    i in identities && identities[i].provider == provider && identities[i].subject == subject
  }

  lemma LookupFindsTheIdentity(identities: Identities, provider: string, subject: string)
    ensures var found := IdentityBySubject(identities, provider, subject);
            && (found.Some? ==> Linked(identities, found.value, provider, subject))
            && (found.None? <==> forall i :: !Linked(identities, i, provider, subject))
  {
    assert forall i <- identities ::
        Names(identities[i], provider, subject) <==> Linked(identities, i, provider, subject);
  }

  predicate Complete(claims: Claims) {
    claims.emailVerified && claims.subject != "" && claims.email != ""
  }

  ghost predicate AwaitsProof(db: Db, provider: string, claims: Claims) {
    && Complete(claims) && (forall i :: !Linked(db.identities, i, provider, claims.subject))
    && exists u :: OwnsAddress(db.users, u, claims.email) && db.users[u].verifiedAt == None
  }

  // Each refusal has one reason, a refusal changes nothing, and there is no other.
  lemma SignInAnswers(db: Db, c: Config, provider: string, claims: Claims, p: Platform, drawn: Drawn)
    requires Stored(db.users)
    ensures var (after, answer) := SignIn(db, c, provider, claims, p, drawn);
            && (answer == Err(ProviderEmailUnverified) <==> !claims.emailVerified)
            && (answer == Err(ProviderClaimsIncomplete) <==>
                  claims.emailVerified && (claims.subject == "" || claims.email == ""))
            && (answer == Err(LinkNeedsVerifiedEmail) <==> AwaitsProof(db, provider, claims))
            && (answer.Ok? <==> Complete(claims) && !AwaitsProof(db, provider, claims))
            && (answer.Err? ==> after == db)
  {
    LookupFindsTheOwner(db.users, claims.email);
    LookupFindsTheIdentity(db.identities, provider, claims.subject);
    hide NormalizeEmail, UserByEmail, IdentityBySubject, Stored, OwnsAddress, Linked;
  }

  // A known provider account signs its user in and adds nothing but the session.
  lemma SignInOfKnownSubject(db: Db, c: Config, provider: string, claims: Claims, p: Platform, drawn: Drawn)
    requires Complete(claims) && exists i :: Linked(db.identities, i, provider, claims.subject)
    ensures var (after, answer) := SignIn(db, c, provider, claims, p, drawn);
            exists i :: && Linked(db.identities, i, provider, claims.subject)
                        && HandsOver(db.refresh, after.refresh, answer, c, db.identities[i].user, drawn.family, p,
                                     drawn.token, db.now)
                        && after == db.(refresh := after.refresh)
  {
    LookupFindsTheIdentity(db.identities, provider, claims.subject);
    var i := IdentityBySubject(db.identities, provider, claims.subject).value;
    IssuingHandsOver(db, c, db.identities[i].user, drawn.family, p, drawn.token);
    hide NormalizeEmail, UserByEmail, IdentityBySubject, HandsOver, IssueSession;
  }

  predicate AddsIdentity(before: Identities, after: Identities, id: IdentityId, u: UserId, provider: string,
                         claims: Claims)
  {
    && after.Keys == before.Keys + {id} && after[id] == Identity(u, provider, claims.subject, claims.email)
    && (forall i <- before :: i != id ==> after[i] == before[i])
  }

  // A new provider account under a proven address is linked to the owner of the address ...
  lemma SignInLinks(db: Db, c: Config, provider: string, claims: Claims, p: Platform, drawn: Drawn, u: UserId)
    requires Stored(db.users) && Complete(claims) && forall i :: !Linked(db.identities, i, provider, claims.subject)
    requires OwnsAddress(db.users, u, claims.email) && db.users[u].verifiedAt != None
    ensures var (after, answer) := SignIn(db, c, provider, claims, p, drawn);
            && HandsOver(db.refresh, after.refresh, answer, c, u, drawn.family, p, drawn.token, db.now)
            && AddsIdentity(db.identities, after.identities, drawn.identity, u, provider, claims)
            && after == db.(refresh := after.refresh, identities := after.identities)
  {
    LookupFindsTheOwner(db.users, claims.email);
    LookupFindsTheIdentity(db.identities, provider, claims.subject);
    var identities := CreateIdentity(db.identities, drawn.identity, u, provider, claims);
    IssuingHandsOver(db.(identities := identities), c, u, drawn.family, p, drawn.token);
    hide NormalizeEmail, UserByEmail, IdentityBySubject, HandsOver, IssueSession, Stored, OwnsAddress, Linked;
  }

  // Exactly one user was added, under a clean spelling of the address.
  ghost predicate AddsUser(before: Users, after: Users, id: UserId, email: string, verifiedAt: Option<Time>,
                           password: Option<string>)
  {
    && after.Keys == before.Keys + {id} && (forall u <- before :: u != id ==> after[u] == before[u])
    && Clean(after[id].email) && Respelled(after[id].email, email)
    && after[id].verifiedAt == verifiedAt && after[id].password == password
  }

  lemma CreatingAddsUser(users: Users, id: UserId, email: string, verifiedAt: Option<Time>, password: Option<string>)
    ensures AddsUser(users, users[id := User(NormalizeEmail(email), verifiedAt, password)], id, email, verifiedAt,
                     password)
  {
    NormalizedIsClean(email);
    hide NormalizeEmail, Clean, Respelled;
  }

  // ... and under a new address it makes an account of its own, verified now and without a password.
  lemma SignInCreates(db: Db, c: Config, provider: string, claims: Claims, p: Platform, drawn: Drawn)
    requires Stored(db.users) && Complete(claims) && forall i :: !Linked(db.identities, i, provider, claims.subject)
    requires forall u :: !OwnsAddress(db.users, u, claims.email)
    ensures var (after, answer) := SignIn(db, c, provider, claims, p, drawn);
            && HandsOver(db.refresh, after.refresh, answer, c, drawn.user, drawn.family, p, drawn.token, db.now)
            && AddsUser(db.users, after.users, drawn.user, claims.email, Some(db.now), None)
            && AddsIdentity(db.identities, after.identities, drawn.identity, drawn.user, provider, claims)
            && after.links == db.links && after.now == db.now
  {
    LookupFindsTheOwner(db.users, claims.email);
    LookupFindsTheIdentity(db.identities, provider, claims.subject);
    var users := db.users[drawn.user := User(NormalizeEmail(claims.email), Some(db.now), None)];
    var identities := CreateIdentity(db.identities, drawn.identity, drawn.user, provider, claims);
    CreatingAddsUser(db.users, drawn.user, claims.email, Some(db.now), None);
    IssuingHandsOver(db.(users := users, identities := identities), c, drawn.user, drawn.family, p, drawn.token);
    hide NormalizeEmail, UserByEmail, IdentityBySubject, HandsOver, IssueSession, Stored, OwnsAddress, Linked, AddsUser;
  }

  // ----- Registering and verifying -----

  // Exactly one link was added: unused, for the user, for ttl from now.
  predicate AddsLink(before: Links, after: Links, link: string, u: UserId, ttl: Time, now: Time) {
    && after.Keys == before.Keys + {Sha256(link)} && after[Sha256(link)] == Link(u, None, now + ttl)
    && (forall h <- before :: h != Sha256(link) ==> after[h] == before[h])
  }

  // A spelling of a registered address is taken ...
  lemma RegisterTaken(db: Db, ttl: Time, email: string, hash: string, id: UserId, link: string, u: UserId)
    requires Stored(db.users) && OwnsAddress(db.users, u, email)
    ensures Register(db, ttl, email, hash, id, link) == (db, Err(EmailTaken))
  {
    LookupFindsTheOwner(db.users, email);
    hide NormalizeEmail, UserByEmail, Stored, OwnsAddress;
  }

  // ... and any other makes an unverified account with one link.
  lemma RegisterCreates(db: Db, ttl: Time, email: string, hash: string, id: UserId, link: string)
    requires Stored(db.users) && forall u :: !OwnsAddress(db.users, u, email)
    ensures var (after, answer) := Register(db, ttl, email, hash, id, link);
            && answer == Ok(id)
            && AddsUser(db.users, after.users, id, email, None, Some(hash))
            && AddsLink(db.links, after.links, link, id, ttl, db.now)
            && after == db.(users := after.users, links := after.links)
  {
    LookupFindsTheOwner(db.users, email);
    CreatingAddsUser(db.users, id, email, None, Some(hash));
    hide NormalizeEmail, UserByEmail, Stored, OwnsAddress, AddsUser;
  }

  // A resend does something for unproven addresses only: it retires the links of their owner and adds one.
  lemma ResendOfNobody(db: Db, ttl: Time, email: string, link: string)
    requires Stored(db.users) && forall u :: OwnsAddress(db.users, u, email) ==> db.users[u].verifiedAt != None
    ensures Resend(db, ttl, email, link) == db
  {
    LookupFindsTheOwner(db.users, email);
    hide NormalizeEmail, UserByEmail, Stored, OwnsAddress;
  }

  predicate Retired(before: Links, after: Links, u: UserId, now: Time) {
    && after.Keys == before.Keys
    && (forall h <- before ::
          after[h] == if before[h].user == u && before[h].usedAt == None then Link(u, Some(now), before[h].expiresAt)
                      else before[h])
  }

  lemma ResendReplaces(db: Db, ttl: Time, email: string, link: string, u: UserId)
    requires Stored(db.users) && OwnsAddress(db.users, u, email) && db.users[u].verifiedAt == None
    ensures var after := Resend(db, ttl, email, link);
            && after == db.(links := after.links)
            && exists retired :: Retired(db.links, retired, u, db.now)
                                 && AddsLink(retired, after.links, link, u, ttl, db.now)
  {
    hide VerificationLinks.ResendAll;
    LookupFindsTheOwner(db.users, email);
    RequestRuns.ResendMoves(ServerOf(db, ttl), 0, email, link);
    assert Retired(db.links, Invalidate(db.links, u, db.now), u, db.now);
    hide NormalizeEmail, UserByEmail, Stored, OwnsAddress, Invalidate, Retired;
  }

  predicate Works(links: Links, plain: string, now: Time) {
    plain != "" && Sha256(plain) in links && links[Sha256(plain)].usedAt == None && now < links[Sha256(plain)].expiresAt
  }

  // A link works once, until it expires: it is burnt now, and its user is verified now unless it was before.
  lemma VerifyOfWorkingLink(db: Db, plain: string)
    requires Works(db.links, plain, db.now)
    ensures var (after, answer) := VerifyEmail(db, plain);
            var link := db.links[Sha256(plain)];
            && answer == Ok(link.user)
            && after.links == db.links[Sha256(plain) := Link(link.user, Some(db.now), link.expiresAt)]
            && after.users.Keys == db.users.Keys
            && (forall u <- db.users ::
                  after.users[u] == if u == link.user && db.users[u].verifiedAt == None then
                                      User(db.users[u].email, Some(db.now), db.users[u].password)
                                    else db.users[u])
            && after == db.(users := after.users, links := after.links)
  {
  }

  lemma VerifyOfAnyOther(db: Db, plain: string)
    requires !Works(db.links, plain, db.now)
    ensures VerifyEmail(db, plain) == (db, Err(TokenNotUsable))
  {
  }

  // ----- Linking and unlinking -----

  lemma LinkAnswers(db: Db, u: UserId, provider: string, claims: Claims, id: IdentityId)
    ensures var (after, answer) := LinkProvider(db, u, provider, claims, id);
            var taken := exists i :: Linked(db.identities, i, provider, claims.subject);
            && (answer == Err(ProviderEmailUnverified) <==> !claims.emailVerified)
            && (answer == Err(IdentityAlreadyLinked) <==> claims.emailVerified && taken)
            && (answer == Err(StoreFailure) <==> claims.emailVerified && !taken && u !in db.users)
            && (answer.Ok? <==> claims.emailVerified && !taken && u in db.users)
            && (answer.Err? ==> after == db)
            && (answer.Ok? ==> answer.value == id
                               && AddsIdentity(db.identities, after.identities, id, u, provider, claims)
                               && after == db.(identities := after.identities))
  {
    LookupFindsTheIdentity(db.identities, provider, claims.subject);
    hide IdentityBySubject, Linked;
  }

  // The ways a user can sign in: linked provider accounts, and a password hash.
  function Ways(db: Db, u: UserId): nat {
    |set i | i in db.identities && db.identities[i].user == u|
    + if u in db.users && db.users[u].password != None then 1 else 0
  }

  // The last way in is refused first, then somebody else's identity; otherwise exactly that one goes.
  lemma UnlinkAnswers(db: Db, u: UserId, id: IdentityId)
    ensures var (after, answer) := Unlink(db, u, id);
            var own := id in db.identities && db.identities[id].user == u;
            && (answer == Err(LastAuthMethod) <==> Ways(db, u) <= 1)
            && (answer == Err(IdentityNotFound) <==> Ways(db, u) >= 2 && !own)
            && (answer.Ok? <==> Ways(db, u) >= 2 && own)
            && (answer.Err? ==> after == db)
            && (answer.Ok? ==> answer.value == id && after == db.(identities := after.identities)
                               && after.identities.Keys == db.identities.Keys - {id}
                               && (forall i <- after.identities :: after.identities[i] == db.identities[i])
                               && Ways(after, u) == Ways(db, u) - 1)
  {
    assert IdentitiesOf(db.identities, u) == set i | i in db.identities && db.identities[i].user == u;
    var (after, answer) := Unlink(db, u, id);
    if answer.Ok? {
      assert (set i | i in after.identities && after.identities[i].user == u)
          == (set i | i in db.identities && db.identities[i].user == u) - {id};
    }
  }
}
