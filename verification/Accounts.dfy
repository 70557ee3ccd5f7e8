// Register, verify, resend, login, provider sign-in, link and unlink as an interleaved state machine
// over the account tables and the rotation protocol: one SQL statement per step, any number of
// requests in flight, any of which may stop at any time.

module Accounts {
  import opened Core
  import opened Text
  import opened AccountTables
  import Rotation

  // Where a request stands between its statements.
  datatype Pc =
    | Mailing(user: UserId)                                                  // CreateVerificationToken next
    | Retiring(user: UserId)                                                 // InvalidateEmailVerificationTokens next
    | Seeking(provider: string, claims: Claims, platform: Platform)          // UserByEmail next
    | Creating(provider: string, claims: Claims, platform: Platform)         // CreateUserWithIdentity next
    | Linking(user: UserId, provider: string, claims: Claims, platform: Platform)  // CreateIdentity next
    | Unlinking(user: UserId, identity: IdentityId)                          // DeleteIdentity next

  datatype Tables = Tables(users: Users, identities: Identities, links: Links)

  // How an identity came to its owner: by the address its claims named, or while somebody was signed
  // in, with the users an access token had been minted for at that moment.
  datatype Origin = ByAddress(claims: Claims) | WhileSignedIn(claims: Claims, signedIn: set<UserId>)

  datatype History = History(
    mailed: map<Hash, UserId>,        // every link ever issued, and to whom
    consumed: set<Hash>,              // links that verified somebody
    vouched: map<UserId, Claims>,     // users created from a provider's claims
    origins: map<IdentityId, Origin>) // how each identity was made

  // Access tokens are capabilities: sessions.log.issued holds the users one was minted for.
  datatype State = State(
    tables: Tables,
    flight: map<RequestId, Pc>,
    history: History,
    sessions: Rotation.State,
    linkTtl: Time)

  datatype Action =
    | Session(action: Rotation.Action)
    | Register(req: RequestId, id: UserId, email: string, password: string)
    | Mail(req: RequestId, hash: Hash, mintedAt: Time)
    | ResendRead(req: RequestId, email: string)
    | Retire(req: RequestId)
    | Verify(hash: Hash)
    | Login(req: RequestId, email: string, accepted: bool, family: FamilyId, platform: Platform)
    | SignIn(req: RequestId, provider: string, claims: Claims, platform: Platform, family: FamilyId)
    | FindUser(req: RequestId)
    | Create(req: RequestId, id: UserId, identity: IdentityId, family: FamilyId)
    | LinkFound(req: RequestId, identity: IdentityId, family: FamilyId)
    | LinkSignedIn(user: UserId, provider: string, claims: Claims, identity: IdentityId)
    | UnlinkCount(req: RequestId, user: UserId, identity: IdentityId)
    | UnlinkDelete(req: RequestId)
    | SweepLinks
    | Abort(req: RequestId)

  function Init(config: Rotation.Config, linkTtl: Time, now: Time): State {
    State(Tables(map[], map[], map[]), map[], History(map[], {}, map[], map[]), Rotation.Init(config, now), linkTtl)
  }

  predicate Idle(s: State, r: RequestId) {
    r !in s.flight && r !in s.sessions.flight
  }

  predicate CanStart(s: State, r: RequestId, f: FamilyId) {
    r !in s.sessions.flight && f !in s.sessions.log.owner
  }

  // Identifiers and tokens are fresh; authenticated requests come from holders of an access token.
  ghost predicate Enabled(s: State, a: Action) {
    match a
    case Session(ra) => !ra.Begin? && Rotation.Enabled(s.sessions, ra)
    case Register(r, id, _, password) => Idle(s, r) && id !in s.tables.users && password != ""
    case Mail(r, h, at) => r in s.flight && s.flight[r].Mailing? && h !in s.history.mailed && at <= s.sessions.now
    case ResendRead(r, _) => Idle(s, r)
    case Retire(r) => r in s.flight && s.flight[r].Retiring?
    case Verify(_) => true
    case Login(r, _, _, f, _) => Idle(s, r) && CanStart(s, r, f)
    case SignIn(r, _, _, _, f) => Idle(s, r) && CanStart(s, r, f)
    case FindUser(r) => r in s.flight && s.flight[r].Seeking?
    case Create(r, id, i, f) =>
      r in s.flight && s.flight[r].Creating? && id !in s.tables.users && i !in s.tables.identities && CanStart(s, r, f)
    case LinkFound(r, i, f) => r in s.flight && s.flight[r].Linking? && i !in s.tables.identities && CanStart(s, r, f)
    case LinkSignedIn(u, _, _, i) => u in s.sessions.log.issued && i !in s.tables.identities
    case UnlinkCount(r, u, _) => Idle(s, r) && u in s.sessions.log.issued
    case UnlinkDelete(r) => r in s.flight && s.flight[r].Unlinking?
    case SweepLinks => true
    case Abort(r) => r in s.flight
  }

  // startSession: the access token is minted, and the INSERT of the first refresh token is pending.
  function Start(sessions: Rotation.State, r: RequestId, u: UserId, f: FamilyId, p: Platform): Rotation.State
    requires r !in sessions.flight && f !in sessions.log.owner
  {
    Rotation.Step(sessions, Rotation.Begin(r, u, f, p))
  }

  function Done(s: State, r: RequestId): State {
    s.(flight := s.flight - {r})
  }

  ghost function RegisterStep(s: State, r: RequestId, id: UserId, email: string, password: string): State {
    if UserByEmail(s.tables.users, NormalizeEmail(email)).Some? then s
    else s.(tables := s.tables.(users := CreateUser(s.tables.users, id, NormalizeEmail(email), Some(password))),
            flight := s.flight[r := Mailing(id)])
  }

  function MailStep(s: State, r: RequestId, h: Hash, at: Time): State
    requires r in s.flight && s.flight[r].Mailing?
  {
    Done(s, r).(tables := s.tables.(links := s.tables.links[h := Link(s.flight[r].user, None, at + s.linkTtl)]),
                history := s.history.(mailed := s.history.mailed[h := s.flight[r].user]))
  }

  ghost function ResendReadStep(s: State, r: RequestId, email: string): State {
    var u := UserByEmail(s.tables.users, NormalizeEmail(email));
    if u.None? || Verified(s.tables.users[u.value]) then s
    else s.(flight := s.flight[r := Retiring(u.value)])
  }

  function RetireStep(s: State, r: RequestId): State
    requires r in s.flight && s.flight[r].Retiring?
  {
    s.(tables := s.tables.(links := Invalidate(s.tables.links, s.flight[r].user, s.sessions.now)),
       flight := s.flight[r := Mailing(s.flight[r].user)])
  }

  function VerifyStep(s: State, h: Hash): State {
    if !Consumable(s.tables.links, h, s.sessions.now) then s
    else s.(tables := s.tables.(links := Burn(s.tables.links, h, s.sessions.now),
                                users := MarkVerified(s.tables.users, s.tables.links[h].user, s.sessions.now)),
            history := s.history.(consumed := s.history.consumed + {h}))
  }

  // UserByEmail, then the password check whose outcome is `accepted`, then the verified check.
  ghost function LoginStep(s: State, r: RequestId, email: string, accepted: bool, f: FamilyId, p: Platform): State
    requires CanStart(s, r, f)
  {
    var u := UserByEmail(s.tables.users, NormalizeEmail(email));
    if u.None? then s
    else
      var user := s.tables.users[u.value];
      if !HasPassword(user) || !accepted || !Verified(user) then s
      else s.(sessions := Start(s.sessions, r, u.value, f, p))
  }

  // signInWithProvider up to IdentityByProviderSubject.
  ghost function SignInStep(s: State, r: RequestId, provider: string, c: Claims, p: Platform, f: FamilyId): State
    requires CanStart(s, r, f)
  {
    var i := IdentityBySubject(s.tables.identities, provider, c.subject);
    if !c.emailVerified || c.subject == "" || c.email == "" then s
    else if i.Some? then
      s.(sessions := Start(s.sessions, r, s.tables.identities[i.value].user, f, p))
    else s.(flight := s.flight[r := Seeking(provider, c, p)])
  }

  ghost function FindUserStep(s: State, r: RequestId): State
    requires r in s.flight && s.flight[r].Seeking?
  {
    var pc := s.flight[r];
    var u := UserByEmail(s.tables.users, NormalizeEmail(pc.claims.email));
    if u.None? then s.(flight := s.flight[r := Creating(pc.provider, pc.claims, pc.platform)])
    else if !Verified(s.tables.users[u.value]) then Done(s, r)
    else s.(flight := s.flight[r := Linking(u.value, pc.provider, pc.claims, pc.platform)])
  }

  // CreateUserWithIdentity: one statement, so a clash on either index inserts neither row.
  ghost function CreateStep(s: State, r: RequestId, id: UserId, i: IdentityId, f: FamilyId): State
    requires r in s.flight && s.flight[r].Creating? && CanStart(s, r, f)
  {
    var pc := s.flight[r];
    var email := NormalizeEmail(pc.claims.email);
    if UserByEmail(s.tables.users, email).Some?
       || IdentityBySubject(s.tables.identities, pc.provider, pc.claims.subject).Some? then Done(s, r)
    else
      Done(s, r).(
        tables := s.tables.(users := s.tables.users[id := User(email, Some(s.sessions.now), None)],
                            identities := CreateIdentity(s.tables.identities, i, id, pc.provider, pc.claims)),
        history := s.history.(vouched := s.history.vouched[id := pc.claims],
                              origins := s.history.origins[i := ByAddress(pc.claims)]),
        sessions := Start(s.sessions, r, id, f, pc.platform))
  }

  ghost function LinkFoundStep(s: State, r: RequestId, i: IdentityId, f: FamilyId): State
    requires r in s.flight && s.flight[r].Linking? && CanStart(s, r, f)
  {
    var pc := s.flight[r];
    if IdentityBySubject(s.tables.identities, pc.provider, pc.claims.subject).Some? then Done(s, r)
    else
      Done(s, r).(
        tables := s.tables.(identities := CreateIdentity(s.tables.identities, i, pc.user, pc.provider, pc.claims)),
        history := s.history.(origins := s.history.origins[i := ByAddress(pc.claims)]),
        sessions := Start(s.sessions, r, pc.user, f, pc.platform))
  }

  // LinkProviderToken: no e-mail is compared, the caller already owns the account.
  ghost function LinkSignedInStep(s: State, u: UserId, provider: string, c: Claims, i: IdentityId): State {
    if !c.emailVerified || u !in s.tables.users
       || IdentityBySubject(s.tables.identities, provider, c.subject).Some? then s
    else s.(tables := s.tables.(identities := CreateIdentity(s.tables.identities, i, u, provider, c)),
            history := s.history.(origins := s.history.origins[i := WhileSignedIn(c, s.sessions.log.issued)]))
  }

  function UnlinkCountStep(s: State, r: RequestId, u: UserId, i: IdentityId): State {
    if CountAuthMethods(s.tables.users, s.tables.identities, u) <= 1 then s
    else s.(flight := s.flight[r := Unlinking(u, i)])
  }

  function UnlinkDeleteStep(s: State, r: RequestId): State
    requires r in s.flight && s.flight[r].Unlinking?
  {
    Done(s, r).(tables := s.tables.(identities :=
                  DeleteIdentity(s.tables.identities, s.flight[r].identity, s.flight[r].user)))
  }

  ghost function Step(s: State, a: Action): State
    requires Enabled(s, a)
  {
    match a
    case Session(ra) => s.(sessions := Rotation.Step(s.sessions, ra))
    case Register(r, id, email, password) => RegisterStep(s, r, id, email, password)
    case Mail(r, h, at) => MailStep(s, r, h, at)
    case ResendRead(r, email) => ResendReadStep(s, r, email)
    case Retire(r) => RetireStep(s, r)
    case Verify(h) => VerifyStep(s, h)
    case Login(r, email, accepted, f, p) => LoginStep(s, r, email, accepted, f, p)
    case SignIn(r, provider, c, p, f) => SignInStep(s, r, provider, c, p, f)
    case FindUser(r) => FindUserStep(s, r)
    case Create(r, id, i, f) => CreateStep(s, r, id, i, f)
    case LinkFound(r, i, f) => LinkFoundStep(s, r, i, f)
    case LinkSignedIn(u, provider, c, i) => LinkSignedInStep(s, u, provider, c, i)
    case UnlinkCount(r, u, i) => UnlinkCountStep(s, r, u, i)
    case UnlinkDelete(r) => UnlinkDeleteStep(s, r)
    case SweepLinks => s.(tables := s.tables.(links := DeleteExpiredLinks(s.tables.links, s.sessions.now)))
    case Abort(r) => Done(s, r)
  }

  // ----- Runs -----

  ghost predicate Runs(s: State, run: seq<Action>)
    decreases |run|
  {
    run == [] || (Enabled(s, run[0]) && Runs(Step(s, run[0]), run[1..]))
  }

  ghost function Exec(s: State, run: seq<Action>): State
    requires Runs(s, run)
    decreases |run|
  {
    if run == [] then s else Exec(Step(s, run[0]), run[1..])
  }

  // `run` can happen from s and ends in s'.
  ghost predicate Leads(s: State, run: seq<Action>, s': State) {
    Runs(s, run) && Exec(s, run) == s'
  }

  lemma Stay(s: State)
    ensures Leads(s, [], s)
  {
  }

  lemma Lead(s: State, a: Action, rest: seq<Action>, s': State)
    requires Enabled(s, a) && Leads(Step(s, a), rest, s')
    ensures Leads(s, [a] + rest, s')
  {
    hide Step, Enabled;
    assert ([a] + rest)[1..] == rest;
  }

  lemma OneStep(s: State, a: Action)
    requires Enabled(s, a)
    ensures Leads(s, [a], Step(s, a))
  {
    hide Step, Enabled, Leads;
    Stay(Step(s, a));
    Lead(s, a, [], Step(s, a));
    assert [a] + [] == [a];
  }

  lemma TwoSteps(s: State, a: Action, b: Action)
    requires Enabled(s, a) && Enabled(Step(s, a), b)
    ensures Leads(s, [a, b], Step(Step(s, a), b))
  {
    hide Step, Enabled, Leads;
    OneStep(Step(s, a), b);
    Lead(s, a, [b], Step(Step(s, a), b));
    assert [a] + [b] == [a, b];
  }

  // One run after another is a run.
  lemma {:induction false} Join(s: State, xs: seq<Action>, ys: seq<Action>)
    requires Runs(s, xs) && Runs(Exec(s, xs), ys)
    ensures Runs(s, xs + ys) && Exec(s, xs + ys) == Exec(Exec(s, xs), ys)
    decreases |xs|
  {
    hide Step, Enabled;
    if xs == [] {
      assert xs + ys == ys;
    } else {
      assert (xs + ys)[1..] == xs[1..] + ys;
      Join(Step(s, xs[0]), xs[1..], ys);
    }
  }

  // ----- Invariants -----

  predicate IsVerified(users: Users, u: UserId) {
    u in users && Verified(users[u])
  }

  // Addresses are stored normalised and at most once, passwords are never empty.
  ghost predicate UsersInv(users: Users) {
    && EmailsUnique(users)
    && (forall u <- users :: Clean(users[u].email))
    && (forall u <- users :: users[u].password.Some? ==> HasPassword(users[u]))
  }

  // A provider account belongs to one user, whose address is verified.
  ghost predicate IdentitiesInv(users: Users, identities: Identities) {
    && SubjectsUnique(identities)
    && (forall i <- identities :: IsVerified(users, identities[i].user))
  }

  predicate PcOk(users: Users, pc: Pc) {
    match pc
    case Mailing(u) => u in users
    case Retiring(u) => u in users
    case Linking(u, _, c, _) => IsVerified(users, u) && users[u].email == NormalizeEmail(c.email)
    case _ => true
  }

  predicate FlightInv(users: Users, flight: map<RequestId, Pc>) {
    forall r <- flight :: PcOk(users, flight[r])
  }

  predicate LinksInv(users: Users, links: Links, h: History) {
    && (forall l <- links :: l in h.mailed && h.mailed[l] == links[l].user)
    && (forall l <- h.mailed :: h.mailed[l] in users)
  }

  // Why a user counts as verified.
  ghost predicate Followed(h: History, u: UserId, l: Hash) {
    l in h.consumed && l in h.mailed && h.mailed[l] == u
  }

  predicate VouchedFor(users: Users, h: History, u: UserId) {
    u in users && u in h.vouched && h.vouched[u].emailVerified && users[u].email == NormalizeEmail(h.vouched[u].email)
  }

  ghost predicate ProvenanceInv(users: Users, h: History) {
    forall u <- users :: Verified(users[u]) ==> VouchedFor(users, h, u) || exists l :: Followed(h, u, l)
  }

  // Sessions and access tokens exist for verified users only.
  predicate SessionsInv(users: Users, log: Rotation.Log) {
    && (forall f <- log.owner :: IsVerified(users, log.owner[f]))
    && (forall u <- log.issued :: IsVerified(users, u))
  }

  // An identity was made from verified claims, and either they named its owner's address or its owner
  // held an access token.
  predicate OriginOk(users: Users, i: Identity, o: Origin) {
    && i.user in users
    && o.claims.emailVerified && i.subject == o.claims.subject && i.email == o.claims.email
    && match o
       case ByAddress(c) => users[i.user].email == NormalizeEmail(c.email)
       case WhileSignedIn(_, signedIn) => i.user in signedIn
  }

  predicate OriginsInv(users: Users, identities: Identities, origins: map<IdentityId, Origin>) {
    forall i <- identities :: i in origins && OriginOk(users, identities[i], origins[i])
  }

  // A provider is only asked to create or link when its claims say the address is verified.
  predicate ClaimsInv(flight: map<RequestId, Pc>) {
    forall r <- flight ::
      (flight[r].Seeking? || flight[r].Creating? || flight[r].Linking?) ==> flight[r].claims.emailVerified
  }

  ghost predicate Inv(s: State) {
    && UsersInv(s.tables.users)
    && IdentitiesInv(s.tables.users, s.tables.identities)
    && OriginsInv(s.tables.users, s.tables.identities, s.history.origins)
    && FlightInv(s.tables.users, s.flight) && ClaimsInv(s.flight)
    && LinksInv(s.tables.users, s.tables.links, s.history)
    && ProvenanceInv(s.tables.users, s.history)
    && SessionsInv(s.tables.users, s.sessions.log)
    && Rotation.Inv(s.sessions)
  }

  // Users are never removed; address, password and a set verification time never change.
  predicate UsersGrow(before: Users, after: Users) {
    forall u <- before ::
      && u in after
      && after[u].email == before[u].email && after[u].password == before[u].password
      && (Verified(before[u]) ==> after[u].verifiedAt == before[u].verifiedAt)
  }

  lemma InitInv(config: Rotation.Config, linkTtl: Time, now: Time)
    ensures Inv(Init(config, linkTtl, now))
  {
    Rotation.InitInv(config, now);
  }

  // ----- Sessions -----

  lemma StartKeepsSessions(users: Users, sessions: Rotation.State, r: RequestId, u: UserId, f: FamilyId, p: Platform)
    requires SessionsInv(users, sessions.log) && Rotation.Inv(sessions) && IsVerified(users, u)
    requires r !in sessions.flight && f !in sessions.log.owner
    ensures SessionsInv(users, Start(sessions, r, u, f, p).log) && Rotation.Inv(Start(sessions, r, u, f, p))
  {
    Rotation.BeginKeepsInv(sessions, r, u, f, p);
    hide Rotation.Inv;
  }

  // No step but Begin starts a family, and a spend mints an access token for the family's user.
  lemma SessionLog(sessions: Rotation.State, a: Rotation.Action)
    requires Rotation.Inv(sessions) && !a.Begin? && Rotation.Enabled(sessions, a)
    ensures var log, log' := sessions.log, Rotation.Step(sessions, a).log;
            log'.owner == log.owner && log'.issued <= log.issued + log.owner.Values
  {
    if Rotation.QuietAction(sessions, a) {
      hide Rotation.Inv;
      Rotation.QuietActionsAreQuiet(sessions, a);
      hide Rotation.Step;
    } else if a.Present? {
      assert Rotation.RowOk(sessions, a.hash);
      hide Rotation.Inv;
    } else {
      hide Rotation.Inv;
    }
  }

  lemma SessionKeepsSessions(users: Users, sessions: Rotation.State, a: Rotation.Action)
    requires SessionsInv(users, sessions.log) && Rotation.Inv(sessions) && !a.Begin? && Rotation.Enabled(sessions, a)
    ensures SessionsInv(users, Rotation.Step(sessions, a).log) && Rotation.Inv(Rotation.Step(sessions, a))
  {
    hide Rotation.Inv, Rotation.Step, Rotation.Enabled;
    Rotation.StepKeepsInv(sessions, a);
    SessionLog(sessions, a);
  }

  lemma OriginsSurvive(before: Users, after: Users, identities: Identities, origins: map<IdentityId, Origin>)
    requires OriginsInv(before, identities, origins) && UsersGrow(before, after)
    ensures OriginsInv(after, identities, origins)
  {
    hide NormalizeEmail;
    forall i <- identities ensures OriginOk(after, identities[i], origins[i]) {
      assert OriginOk(before, identities[i], origins[i]);
    }
  }

  lemma GrowthKeepsTheRest(s: State, users: Users)
    requires Inv(s) && UsersGrow(s.tables.users, users)
    ensures forall i <- s.tables.identities :: IsVerified(users, s.tables.identities[i].user)
    ensures FlightInv(users, s.flight) && LinksInv(users, s.tables.links, s.history)
    ensures SessionsInv(users, s.sessions.log)
    ensures OriginsInv(users, s.tables.identities, s.history.origins)
  {
    hide Rotation.Inv, UsersInv, ProvenanceInv, NormalizeEmail;
    assert forall r <- s.flight :: PcOk(s.tables.users, s.flight[r]);
    OriginsSurvive(s.tables.users, users, s.tables.identities, s.history.origins);
  }

  // ----- One lemma per statement -----

  lemma NewUserKeepsUsers(users: Users, id: UserId, user: User)
    requires UsersInv(users) && id !in users && UserByEmail(users, user.email).None?
    requires Clean(user.email) && (user.password.Some? ==> HasPassword(user))
    ensures UsersInv(users[id := user])
  {
  }

  lemma RegisterKeepsUsers(s: State, r: RequestId, id: UserId, email: string, password: string)
    requires UsersInv(s.tables.users) && id !in s.tables.users && password != ""
    requires UserByEmail(s.tables.users, NormalizeEmail(email)).None?
    ensures UsersInv(RegisterStep(s, r, id, email, password).tables.users)
  {
    NormalizedIsClean(email);
    hide NormalizeEmail, UsersInv, Clean;
    NewUserKeepsUsers(s.tables.users, id, User(NormalizeEmail(email), None, Some(password)));
  }

  lemma IdentitiesGrow(before: Users, after: Users, identities: Identities)
    requires IdentitiesInv(before, identities) && UsersGrow(before, after)
    ensures IdentitiesInv(after, identities)
  {
  }

  lemma ProvenanceSurvives(s: State, users: Users, h: History)
    requires Inv(s) && UsersGrow(s.tables.users, users)
    requires forall u <- users :: Verified(users[u]) ==> u in s.tables.users && Verified(s.tables.users[u])
    requires forall l <- s.history.mailed :: l in h.mailed && h.mailed[l] == s.history.mailed[l]
    requires s.history.consumed <= h.consumed && h.vouched == s.history.vouched
    ensures ProvenanceInv(users, h)
  {
    hide Rotation.Inv, UsersInv, IdentitiesInv, OriginsInv, FlightInv, SessionsInv;
    forall u <- users | Verified(users[u]) ensures VouchedFor(users, h, u) || exists l :: Followed(h, u, l) {
      if !VouchedFor(s.tables.users, s.history, u) {
        var l :| Followed(s.history, u, l);
        assert Followed(h, u, l);
      }
    }
  }

  lemma RegisterKeepsInv(s: State, r: RequestId, id: UserId, email: string, password: string)
    requires Inv(s) && id !in s.tables.users && password != ""
    ensures Inv(RegisterStep(s, r, id, email, password))
  {
    hide Rotation.Inv, NormalizeEmail, UsersInv, ProvenanceInv, SessionsInv, IdentitiesInv, LinksInv, OriginsInv;
    if UserByEmail(s.tables.users, NormalizeEmail(email)).None? {
      RegisterKeepsUsers(s, r, id, email, password);
      var users := RegisterStep(s, r, id, email, password).tables.users;
      GrowthKeepsTheRest(s, users);
      ProvenanceSurvives(s, users, s.history);
      IdentitiesGrow(s.tables.users, users, s.tables.identities);
    }
  }

  lemma MailKeepsInv(s: State, r: RequestId, h: Hash, at: Time)
    requires Inv(s) && Enabled(s, Mail(r, h, at))
    ensures Inv(MailStep(s, r, h, at))
  {
    hide Rotation.Inv, UsersInv, IdentitiesInv, OriginsInv, SessionsInv;
    assert PcOk(s.tables.users, s.flight[r]);
    var s' := MailStep(s, r, h, at);
    ProvenanceSurvives(s, s.tables.users, s'.history);
    hide ProvenanceInv;
  }

  lemma ResendReadKeepsInv(s: State, r: RequestId, email: string)
    requires Inv(s)
    ensures Inv(ResendReadStep(s, r, email))
  {
    hide Rotation.Inv, UsersInv, IdentitiesInv, OriginsInv, SessionsInv, ProvenanceInv, LinksInv;
    hide UserByEmail, NormalizeEmail;
  }

  lemma RetireKeepsInv(s: State, r: RequestId)
    requires Inv(s) && Enabled(s, Retire(r))
    ensures Inv(RetireStep(s, r))
  {
    hide Rotation.Inv, UsersInv, IdentitiesInv, OriginsInv, SessionsInv, ProvenanceInv;
    assert PcOk(s.tables.users, s.flight[r]);
  }

  lemma VerifyKeepsUsers(users: Users, u: UserId, now: Time)
    requires UsersInv(users)
    ensures UsersInv(MarkVerified(users, u, now)) && UsersGrow(users, MarkVerified(users, u, now))
  {
    hide Clean, ToLower;
  }

  lemma VerifyKeepsProvenance(s: State, h: Hash)
    requires Inv(s) && Consumable(s.tables.links, h, s.sessions.now)
    ensures ProvenanceInv(VerifyStep(s, h).tables.users, VerifyStep(s, h).history)
  {
    hide Rotation.Inv, UsersInv, IdentitiesInv, OriginsInv, FlightInv, SessionsInv;
    var u := s.tables.links[h].user;
    var s' := VerifyStep(s, h);
    assert Followed(s'.history, u, h);
    forall v <- s'.tables.users | Verified(s'.tables.users[v])
      ensures VouchedFor(s'.tables.users, s'.history, v) || exists l :: Followed(s'.history, v, l)
    {
      if v != u && !VouchedFor(s.tables.users, s.history, v) {
        var l :| Followed(s.history, v, l);
        assert Followed(s'.history, v, l);
      }
    }
  }

  lemma VerifyKeepsInv(s: State, h: Hash)
    requires Inv(s)
    ensures Inv(VerifyStep(s, h))
  {
    hide Rotation.Inv, UsersInv;
    if Consumable(s.tables.links, h, s.sessions.now) {
      VerifyKeepsProvenance(s, h);
      VerifyKeepsUsers(s.tables.users, s.tables.links[h].user, s.sessions.now);
      GrowthKeepsTheRest(s, VerifyStep(s, h).tables.users);
      hide UsersInv, ProvenanceInv, FlightInv, SessionsInv, OriginsInv, MarkVerified;
    }
  }

  lemma LoginKeepsInv(s: State, r: RequestId, email: string, accepted: bool, f: FamilyId, p: Platform)
    requires Inv(s) && CanStart(s, r, f)
    ensures Inv(LoginStep(s, r, email, accepted, f, p))
  {
    hide Rotation.Inv, UsersInv, IdentitiesInv, OriginsInv, FlightInv, ProvenanceInv, LinksInv, SessionsInv;
    hide Start, UserByEmail;
    var u := UserByEmail(s.tables.users, NormalizeEmail(email));
    if u.Some? && IsVerified(s.tables.users, u.value) {
      StartKeepsSessions(s.tables.users, s.sessions, r, u.value, f, p);
    }
  }

  lemma SignInKeepsInv(s: State, r: RequestId, provider: string, c: Claims, p: Platform, f: FamilyId)
    requires Inv(s) && CanStart(s, r, f)
    ensures Inv(SignInStep(s, r, provider, c, p, f))
  {
    hide Rotation.Inv, UsersInv, ProvenanceInv, LinksInv, SessionsInv, OriginsInv, Start, IdentityBySubject;
    var i := IdentityBySubject(s.tables.identities, provider, c.subject);
    if i.Some? {
      StartKeepsSessions(s.tables.users, s.sessions, r, s.tables.identities[i.value].user, f, p);
    }
  }

  // Stored addresses are normalised, so the address found is the address asked for.
  lemma FoundAddress(users: Users, email: string)
    requires UsersInv(users)
    ensures var u := UserByEmail(users, NormalizeEmail(email));
            u.Some? ==> users[u.value].email == NormalizeEmail(email)
  {
    NormalizedIsClean(email);
    CleanIsUnchanged(NormalizeEmail(email));
    var u := UserByEmail(users, NormalizeEmail(email));
    if u.Some? {
      CleanIsUnchanged(users[u.value].email);
    }
    hide NormalizeEmail, Clean;
  }

  lemma FindUserKeepsInv(s: State, r: RequestId)
    requires Inv(s) && Enabled(s, FindUser(r))
    ensures Inv(FindUserStep(s, r))
  {
    hide Rotation.Inv, UsersInv, IdentitiesInv, OriginsInv, ProvenanceInv, LinksInv, SessionsInv;
    hide UserByEmail, NormalizeEmail;
    FoundAddress(s.tables.users, s.flight[r].claims.email);
  }

  lemma NewIdentityKeepsInv(users: Users, identities: Identities, i: IdentityId, u: UserId, provider: string, c: Claims)
    requires IdentitiesInv(users, identities) && IsVerified(users, u) && i !in identities
    requires IdentityBySubject(identities, provider, c.subject).None?
    ensures IdentitiesInv(users, CreateIdentity(identities, i, u, provider, c))
  {
  }

  lemma NewIdentityKeepsOrigins(users: Users, identities: Identities, origins: map<IdentityId, Origin>,
                                i: IdentityId, u: UserId, provider: string, c: Claims, o: Origin)
    requires OriginsInv(users, identities, origins) && i !in identities
    requires OriginOk(users, Identity(u, provider, c.subject, c.email), o)
    ensures OriginsInv(users, CreateIdentity(identities, i, u, provider, c), origins[i := o])
  {
    hide OriginOk;
  }

  lemma CreateKeepsProvenance(s: State, r: RequestId, id: UserId, i: IdentityId, f: FamilyId)
    requires Inv(s) && id !in s.tables.users && r in s.flight && s.flight[r].Creating? && CanStart(s, r, f)
    ensures ProvenanceInv(CreateStep(s, r, id, i, f).tables.users, CreateStep(s, r, id, i, f).history)
  {
    hide Rotation.Inv, Start, UsersInv, IdentitiesInv, SessionsInv, LinksInv, NormalizeEmail;
    var s' := CreateStep(s, r, id, i, f);
    forall v <- s'.tables.users | Verified(s'.tables.users[v])
      ensures VouchedFor(s'.tables.users, s'.history, v) || exists l :: Followed(s'.history, v, l)
    {
      if v in s.tables.users && !VouchedFor(s.tables.users, s.history, v) {
        var l :| Followed(s.history, v, l);
        assert Followed(s'.history, v, l);
      }
    }
  }

  lemma CreateKeepsInv(s: State, r: RequestId, id: UserId, i: IdentityId, f: FamilyId)
    requires Inv(s) && id !in s.tables.users && i !in s.tables.identities
    requires r in s.flight && s.flight[r].Creating? && CanStart(s, r, f)
    ensures Inv(CreateStep(s, r, id, i, f))
  {
    hide Rotation.Inv, Start, NormalizeEmail, UsersInv, ProvenanceInv, SessionsInv, IdentitiesInv, OriginsInv;
    var pc := s.flight[r];
    if UserByEmail(s.tables.users, NormalizeEmail(pc.claims.email)).None?
       && IdentityBySubject(s.tables.identities, pc.provider, pc.claims.subject).None? {
      var users := CreateStep(s, r, id, i, f).tables.users;
      GrowthKeepsTheRest(s, users);
      IdentitiesGrow(s.tables.users, users, s.tables.identities);
      NewIdentityKeepsInv(users, s.tables.identities, i, id, pc.provider, pc.claims);
      NewIdentityKeepsOrigins(users, s.tables.identities, s.history.origins, i, id, pc.provider, pc.claims,
                              ByAddress(pc.claims));
      StartKeepsSessions(users, s.sessions, r, id, f, pc.platform);
      CreateKeepsProvenance(s, r, id, i, f);
      NormalizedIsClean(pc.claims.email);
      NewUserKeepsUsers(s.tables.users, id, users[id]);
    }
  }

  lemma LinkFoundKeepsInv(s: State, r: RequestId, i: IdentityId, f: FamilyId)
    requires Inv(s) && r in s.flight && s.flight[r].Linking? && i !in s.tables.identities && CanStart(s, r, f)
    ensures Inv(LinkFoundStep(s, r, i, f))
  {
    hide Rotation.Inv, UsersInv, ProvenanceInv, IdentitiesInv, SessionsInv, OriginsInv, Start, NormalizeEmail;
    var pc := s.flight[r];
    assert PcOk(s.tables.users, pc);
    if IdentityBySubject(s.tables.identities, pc.provider, pc.claims.subject).None? {
      NewIdentityKeepsInv(s.tables.users, s.tables.identities, i, pc.user, pc.provider, pc.claims);
      NewIdentityKeepsOrigins(s.tables.users, s.tables.identities, s.history.origins, i, pc.user, pc.provider,
                              pc.claims, ByAddress(pc.claims));
      StartKeepsSessions(s.tables.users, s.sessions, r, pc.user, f, pc.platform);
      ProvenanceSurvives(s, s.tables.users, LinkFoundStep(s, r, i, f).history);
    }
  }

  lemma LinkSignedInKeepsInv(s: State, u: UserId, provider: string, c: Claims, i: IdentityId)
    requires Inv(s) && Enabled(s, LinkSignedIn(u, provider, c, i))
    ensures Inv(LinkSignedInStep(s, u, provider, c, i))
  {
    hide Rotation.Inv, UsersInv, ProvenanceInv, FlightInv, IdentitiesInv, OriginsInv;
    if c.emailVerified && IdentityBySubject(s.tables.identities, provider, c.subject).None? {
      NewIdentityKeepsInv(s.tables.users, s.tables.identities, i, u, provider, c);
      NewIdentityKeepsOrigins(s.tables.users, s.tables.identities, s.history.origins, i, u, provider, c,
                              WhileSignedIn(c, s.sessions.log.issued));
      ProvenanceSurvives(s, s.tables.users, LinkSignedInStep(s, u, provider, c, i).history);
    }
  }

  lemma UnlinkDeleteKeepsInv(s: State, r: RequestId)
    requires Inv(s) && Enabled(s, UnlinkDelete(r))
    ensures Inv(UnlinkDeleteStep(s, r))
  {
    hide Rotation.Inv, UsersInv, ProvenanceInv, SessionsInv, LinksInv, OriginOk;
  }

  lemma SmallStepsKeepInv(s: State, a: Action)
    requires Inv(s) && Enabled(s, a) && (a.UnlinkCount? || a.SweepLinks? || a.Abort?)
    ensures Inv(Step(s, a))
  {
    hide Rotation.Inv, UsersInv, IdentitiesInv, OriginsInv, ProvenanceInv, SessionsInv;
  }

  lemma SessionKeepsInv(s: State, ra: Rotation.Action)
    requires Inv(s) && Enabled(s, Session(ra))
    ensures Inv(Step(s, Session(ra)))
  {
    hide Rotation.Inv, SessionsInv, UsersInv, IdentitiesInv, OriginsInv, FlightInv, ProvenanceInv, LinksInv;
    SessionKeepsSessions(s.tables.users, s.sessions, ra);
  }

  predicate MailAction(a: Action) {
    a.Register? || a.Mail? || a.ResendRead? || a.Retire? || a.Verify? || a.Login?
  }

  lemma MailActionsKeepInv(s: State, a: Action)
    requires Inv(s) && Enabled(s, a) && MailAction(a)
    ensures Inv(Step(s, a))
  {
    hide Inv;
    match a
    case Register(r, id, email, password) => RegisterKeepsInv(s, r, id, email, password);
    case Mail(r, h, at) => MailKeepsInv(s, r, h, at);
    case ResendRead(r, email) => ResendReadKeepsInv(s, r, email);
    case Retire(r) => RetireKeepsInv(s, r);
    case Verify(h) => VerifyKeepsInv(s, h);
    case Login(r, email, accepted, f, p) => LoginKeepsInv(s, r, email, accepted, f, p);
  }

  predicate IdentityAction(a: Action) {
    a.SignIn? || a.FindUser? || a.Create? || a.LinkFound? || a.LinkSignedIn? || a.UnlinkDelete?
  }

  lemma IdentityActionsKeepInv(s: State, a: Action)
    requires Inv(s) && Enabled(s, a) && IdentityAction(a)
    ensures Inv(Step(s, a))
  {
    hide Inv;
    match a
    case SignIn(r, provider, c, p, f) => SignInKeepsInv(s, r, provider, c, p, f);
    case FindUser(r) => FindUserKeepsInv(s, r);
    case Create(r, id, i, f) => CreateKeepsInv(s, r, id, i, f);
    case LinkFound(r, i, f) => LinkFoundKeepsInv(s, r, i, f);
    case LinkSignedIn(u, provider, c, i) => LinkSignedInKeepsInv(s, u, provider, c, i);
    case UnlinkDelete(r) => UnlinkDeleteKeepsInv(s, r);
  }

  lemma StepKeepsInv(s: State, a: Action)
    requires Inv(s) && Enabled(s, a)
    ensures Inv(Step(s, a))
  {
    hide Inv, Step, Enabled;
    if a.Session? {
      SessionKeepsInv(s, a.action);
    } else if MailAction(a) {
      MailActionsKeepInv(s, a);
    } else if IdentityAction(a) {
      IdentityActionsKeepInv(s, a);
    } else {
      SmallStepsKeepInv(s, a);
    }
  }

  lemma StepGrowsUsers(s: State, a: Action)
    requires Enabled(s, a)
    ensures UsersGrow(s.tables.users, Step(s, a).tables.users)
  {
  }

  lemma {:induction false} ReachableInv(s: State, run: seq<Action>)
    requires Inv(s) && Runs(s, run)
    ensures Inv(Exec(s, run)) && UsersGrow(s.tables.users, Exec(s, run).tables.users)
    decreases |run|
  {
    hide Inv;
    if run != [] {
      StepKeepsInv(s, run[0]);
      StepGrowsUsers(s, run[0]);
      hide Step;
      ReachableInv(Step(s, run[0]), run[1..]);
    }
  }
}
