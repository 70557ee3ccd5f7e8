// The users, auth_identities and verification_tokens tables and the statements on them
// (internal/db/queries/users.sql, identities.sql and verification_tokens.sql).

module AccountTables {
  import opened Core
  import opened Text

  // users.email is citext: compared without case.
  datatype User = User(email: string, verifiedAt: Option<Time>, password: Option<string>)

  datatype Identity = Identity(user: UserId, provider: string, subject: string, email: string)

  datatype Link = Link(user: UserId, usedAt: Option<Time>, expiresAt: Time)

  type Users = map<UserId, User>
  type Identities = map<IdentityId, Identity>
  type Links = map<Hash, Link>

  // What a provider reports about a person.
  datatype Claims = Claims(subject: string, email: string, emailVerified: bool)

  predicate Verified(u: User) {
    u.verifiedAt.Some?
  }

  predicate HasPassword(u: User) {
    u.password.Some? && u.password.value != ""
  }

  // ----- Lookups -----

  predicate SameEmail(a: string, b: string) {
    ToLower(a) == ToLower(b)
  }

  ghost function UserByEmail(users: Users, email: string): (r: Option<UserId>)
    ensures r.Some? ==> r.value in users && SameEmail(users[r.value].email, email)
    ensures r.None? ==> forall u <- users :: !SameEmail(users[u].email, email)
  {
    if exists u :: u in users && SameEmail(users[u].email, email) then
      var u :| u in users && SameEmail(users[u].email, email);
      Some(u)
    else None
  }

  predicate Names(i: Identity, provider: string, subject: string) {
    i.provider == provider && i.subject == subject
  }

  ghost function IdentityBySubject(identities: Identities, provider: string, subject: string): (r: Option<IdentityId>)
    ensures r.Some? ==> r.value in identities && Names(identities[r.value], provider, subject)
    ensures r.None? ==> forall i <- identities :: !Names(identities[i], provider, subject)
  {
    if exists i :: i in identities && Names(identities[i], provider, subject) then
      var i :| i in identities && Names(identities[i], provider, subject);
      Some(i)
    else None
  }

  // The unique indexes on users.email and on (provider, provider_user_id).
  ghost predicate EmailsUnique(users: Users) {
    forall u, v | u in users && v in users :: SameEmail(users[u].email, users[v].email) ==> u == v
  }

  ghost predicate SubjectsUnique(identities: Identities) {
    forall i, j | i in identities && j in identities ::
      Names(identities[i], identities[j].provider, identities[j].subject) ==> i == j
  }

  // ----- Statements -----

  function CreateUser(users: Users, id: UserId, email: string, password: Option<string>): Users {
    users[id := User(email, None, password)]
  }

  predicate Consumable(links: Links, h: Hash, now: Time) {
    h in links && links[h].usedAt.None? && links[h].expiresAt > now
  }

  function Burn(links: Links, h: Hash, now: Time): Links
    requires h in links
  {
    links[h := links[h].(usedAt := Some(now))]
  }

  // email_verified_at = COALESCE(email_verified_at, now())
  function MarkVerified(users: Users, u: UserId, now: Time): Users {
    if u in users && users[u].verifiedAt.None? then users[u := users[u].(verifiedAt := Some(now))] else users
  }

  function RetireLink(l: Link, u: UserId, now: Time): Link {
    if l.user == u && l.usedAt.None? then l.(usedAt := Some(now)) else l
  }

  function Invalidate(links: Links, u: UserId, now: Time): Links {
    map h | h in links :: RetireLink(links[h], u, now)
  }

  function DeleteExpiredLinks(links: Links, now: Time): Links {
    map h | h in links && links[h].expiresAt > now :: links[h]
  }

  function CreateIdentity(identities: Identities, id: IdentityId, u: UserId, provider: string, c: Claims): Identities {
    identities[id := Identity(u, provider, c.subject, c.email)]
  }

  predicate Owns(identities: Identities, u: UserId, id: IdentityId) {
    id in identities && identities[id].user == u
  }

  function DeleteIdentity(identities: Identities, id: IdentityId, u: UserId): Identities {
    if Owns(identities, u, id) then identities - {id} else identities
  }

  function IdentitiesOf(identities: Identities, u: UserId): set<IdentityId> {
    set i | i in identities && identities[i].user == u
  }

  // CountAuthMethods: identities plus one for a password_hash that is not NULL.
  function CountAuthMethods(users: Users, identities: Identities, u: UserId): nat {
    |IdentitiesOf(identities, u)| + if u in users && users[u].password.Some? then 1 else 0
  }
}
