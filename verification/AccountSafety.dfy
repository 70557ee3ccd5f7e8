// What the account machine guarantees, over every run and every interleaving.

module AccountSafety {
  import opened Core
  import opened Text
  import opened AccountTables
  import opened Accounts
  import Rotation

  ghost predicate Reachable(s: State) {
    exists config, linkTtl, now, run ::
      Runs(Init(config, linkTtl, now), run) && s == Exec(Init(config, linkTtl, now), run)
  }

  lemma ReachableIsGood(s: State)
    requires Reachable(s)
    ensures Inv(s)
  {
    var config, linkTtl, now, run :|
      Runs(Init(config, linkTtl, now), run) && s == Exec(Init(config, linkTtl, now), run);
    InitInv(config, linkTtl, now);
    ReachableInv(Init(config, linkTtl, now), run);
  }

  // ----- No unverified principal -----

  // Whoever owns a stored refresh token, a pending one, an issued access token or a linked provider
  // account has proven the address of the account.
  lemma NoUnverifiedPrincipal(s: State)
    requires Reachable(s)
    ensures forall h <- s.sessions.rows :: IsVerified(s.tables.users, s.sessions.rows[h].user)
    ensures forall r <- s.sessions.flight :: s.sessions.flight[r].Minting? ==>
              IsVerified(s.tables.users, s.sessions.flight[r].user)
    ensures forall u <- s.sessions.log.issued :: IsVerified(s.tables.users, u)
    ensures forall i <- s.tables.identities :: IsVerified(s.tables.users, s.tables.identities[i].user)
  {
    ReachableIsGood(s);
    hide UsersInv, FlightInv, LinksInv, ProvenanceInv;
    forall h <- s.sessions.rows ensures IsVerified(s.tables.users, s.sessions.rows[h].user) {
      assert Rotation.RowOk(s.sessions, h);
    }
    forall r <- s.sessions.flight | s.sessions.flight[r].Minting?
      ensures IsVerified(s.tables.users, s.sessions.flight[r].user)
    {
      assert Rotation.MintingOk(s.sessions, r);
    }
  }

  // ----- Provenance -----

  // A verified address was proven by following a link issued to that user, or the account was made
  // from claims a provider vouched for, under exactly that address.
  lemma VerificationHasProvenance(s: State, u: UserId)
    requires Reachable(s) && IsVerified(s.tables.users, u)
    ensures (exists l :: Followed(s.history, u, l)) || VouchedFor(s.tables.users, s.history, u)
  {
    ReachableIsGood(s);
    hide UsersInv, FlightInv, LinksInv, SessionsInv, IdentitiesInv, Rotation.Inv;
  }

  // A linked provider account was linked from verified claims, either because they named its owner's
  // address or while its owner held an access token.
  lemma IdentityHasProvenance(s: State, i: IdentityId)
    requires Reachable(s) && i in s.tables.identities
    ensures i in s.history.origins && s.tables.identities[i].user in s.tables.users
    ensures var identity, origin := s.tables.identities[i], s.history.origins[i];
            && origin.claims.emailVerified
            && identity.subject == origin.claims.subject && identity.email == origin.claims.email
            && match origin
               case ByAddress(c) => NormalizeEmail(c.email) == s.tables.users[identity.user].email
               case WhileSignedIn(_, signedIn) => identity.user in signedIn
  {
    ReachableIsGood(s);
    hide UsersInv, FlightInv, LinksInv, SessionsInv, IdentitiesInv, ProvenanceInv, Rotation.Inv, NormalizeEmail;
    assert OriginOk(s.tables.users, s.tables.identities[i], s.history.origins[i]);
  }

  // Once set, a verification time never changes, and neither do the address and the password.
  lemma VerificationIsPermanent(s: State, run: seq<Action>, u: UserId)
    requires Inv(s) && Runs(s, run) && IsVerified(s.tables.users, u)
    ensures u in Exec(s, run).tables.users
    ensures Exec(s, run).tables.users[u] == s.tables.users[u]
  {
    ReachableInv(s, run);
    hide Inv;
  }

  // ----- A provider account resolves to one user -----

  ghost predicate ResolvesTo(t: Tables, provider: string, subject: string, u: UserId) {
    exists i :: i in t.identities && Names(t.identities[i], provider, subject) && t.identities[i].user == u
  }

  lemma SubjectResolvesOnce(s: State, provider: string, subject: string, u: UserId, v: UserId)
    requires Reachable(s)
    requires ResolvesTo(s.tables, provider, subject, u) && ResolvesTo(s.tables, provider, subject, v)
    ensures u == v
  {
    ReachableIsGood(s);
    hide UsersInv, FlightInv, LinksInv, SessionsInv, ProvenanceInv, Rotation.Inv;
  }

  // The steps that can end a provider sign-in.
  predicate SignsIn(a: Action) {
    a.SignIn? || a.FindUser? || a.Create? || a.LinkFound?
  }

  lemma StartMoves(sessions: Rotation.State, r: RequestId, u: UserId, f: FamilyId, p: Platform)
    requires r !in sessions.flight && f !in sessions.log.owner
    ensures r in Start(sessions, r, u, f, p).flight && Start(sessions, r, u, f, p) != sessions
    ensures Start(sessions, r, u, f, p).flight[r] == Rotation.Minting(f, u, p, sessions.now)
    ensures Start(sessions, r, u, f, p).rows == sessions.rows
  {
  }

  // Every refusal of a provider sign-in leaves the accounts as they were.
  lemma RefusedSignInChangesNothing(s: State, a: Action)
    requires Enabled(s, a) && SignsIn(a) && Step(s, a).sessions == s.sessions
    ensures Step(s, a).tables == s.tables
  {
    hide UserByEmail, IdentityBySubject, NormalizeEmail;
    match a
    case Create(r, id, i, f) => StartMoves(s.sessions, r, id, f, s.flight[r].platform);
    case LinkFound(r, i, f) => StartMoves(s.sessions, r, s.flight[r].user, f, s.flight[r].platform);
    case _ =>
  }

  function ProviderOf(s: State, a: Action): (string, string)
    requires a.SignIn? || ((a.Create? || a.LinkFound?) && a.req in s.flight
                           && (s.flight[a.req].Creating? || s.flight[a.req].Linking?))
  {
    if a.SignIn? then (a.provider, a.claims.subject)
    else (s.flight[a.req].provider, s.flight[a.req].claims.subject)
  }

  // After a successful sign-in the provider account belongs to the user whose session it started.
  lemma SignInResolves(s: State, a: Action)
    requires Inv(s) && Enabled(s, a) && SignsIn(a) && Step(s, a).sessions != s.sessions
    ensures a.req in Step(s, a).sessions.flight && Step(s, a).sessions.flight[a.req].Minting?
    ensures a.SignIn? || ((a.Create? || a.LinkFound?) && (s.flight[a.req].Creating? || s.flight[a.req].Linking?))
    ensures var (provider, subject) := ProviderOf(s, a);
            ResolvesTo(Step(s, a).tables, provider, subject, Step(s, a).sessions.flight[a.req].user)
  {
    hide Inv, UserByEmail, NormalizeEmail, Start;
    match a
    case SignIn(r, provider, c, p, f) =>
      var i := IdentityBySubject(s.tables.identities, provider, c.subject);
      StartMoves(s.sessions, r, s.tables.identities[i.value].user, f, p);
    case Create(r, id, i, f) =>
      StartMoves(s.sessions, r, id, f, s.flight[r].platform);
      assert i in Step(s, a).tables.identities;
    case LinkFound(r, i, f) =>
      StartMoves(s.sessions, r, s.flight[r].user, f, s.flight[r].platform);
      assert i in Step(s, a).tables.identities;
    case FindUser(r) =>
  }

  // Deleting this identity is the only step that can undo the resolution.
  ghost predicate Unlinks(s: State, a: Action, i: IdentityId)
    requires Enabled(s, a)
  {
    a.UnlinkDelete? && s.flight[a.req].identity == i
  }

  lemma StepKeepsIdentity(s: State, a: Action, i: IdentityId)
    requires Enabled(s, a) && i in s.tables.identities && !Unlinks(s, a, i)
    ensures i in Step(s, a).tables.identities && Step(s, a).tables.identities[i] == s.tables.identities[i]
  {
    hide UserByEmail, IdentityBySubject, NormalizeEmail, Start;
  }

  ghost predicate NeverUnlinked(s: State, run: seq<Action>, i: IdentityId)
    requires Runs(s, run)
    decreases |run|
  {
    run == [] || (!Unlinks(s, run[0], i) && NeverUnlinked(Step(s, run[0]), run[1..], i))
  }

  lemma {:induction false} IdentityIsStable(s: State, run: seq<Action>, i: IdentityId)
    requires Runs(s, run) && NeverUnlinked(s, run, i) && i in s.tables.identities
    ensures i in Exec(s, run).tables.identities && Exec(s, run).tables.identities[i] == s.tables.identities[i]
    decreases |run|
  {
    if run != [] {
      StepKeepsIdentity(s, run[0], i);
      hide Step, Enabled;
      IdentityIsStable(Step(s, run[0]), run[1..], i);
    }
  }

  lemma KnownSubjectSignsIn(s: State, i: IdentityId, r: RequestId, c: Claims, p: Platform, f: FamilyId)
    requires Inv(s) && i in s.tables.identities && CanStart(s, r, f)
    requires c.emailVerified && c.email != "" && c.subject != "" && c.subject == s.tables.identities[i].subject
    ensures SignInStep(s, r, s.tables.identities[i].provider, c, p, f)
            == s.(sessions := Start(s.sessions, r, s.tables.identities[i].user, f, p))
  {
    hide UsersInv, FlightInv, LinksInv, SessionsInv, ProvenanceInv, Rotation.Inv, Start;
    assert Names(s.tables.identities[i], s.tables.identities[i].provider, c.subject);
    assert IdentityBySubject(s.tables.identities, s.tables.identities[i].provider, c.subject) == Some(i);
  }

  // Until it is unlinked, every later sign-in with that provider account and verified, complete
  // claims starts a session for the same user and creates nothing, whatever address it claims.
  lemma LaterSignInReachesTheSameUser(s: State, run: seq<Action>, i: IdentityId, r: RequestId, c: Claims, p: Platform,
                                      f: FamilyId)
    requires Inv(s) && Runs(s, run) && i in s.tables.identities && NeverUnlinked(s, run, i)
    requires c.emailVerified && c.email != "" && c.subject != "" && c.subject == s.tables.identities[i].subject
    requires Enabled(Exec(s, run), SignIn(r, s.tables.identities[i].provider, c, p, f))
    ensures var before := Exec(s, run); var after := Step(before, SignIn(r, s.tables.identities[i].provider, c, p, f));
            && after.tables == before.tables
            && r in after.sessions.flight
            && after.sessions.flight[r] == Rotation.Minting(f, s.tables.identities[i].user, p, before.sessions.now)
  {
    hide Inv, Start, Runs, Exec, NeverUnlinked;
    IdentityIsStable(s, run, i);
    ReachableInv(s, run);
    KnownSubjectSignsIn(Exec(s, run), i, r, c, p, f);
    StartMoves(Exec(s, run).sessions, r, s.tables.identities[i].user, f, p);
  }

  // ----- Never locked out -----

  ghost function Methods(t: Tables, u: UserId): nat {
    CountAuthMethods(t.users, t.identities, u)
  }

  // The number the unlink guard reads is what the account page shows: the password flag plus the
  // listed identities.
  lemma CountMatchesAccount(s: State, u: UserId)
    requires Reachable(s) && u in s.tables.users
    ensures Methods(s.tables, u)
            == |IdentitiesOf(s.tables.identities, u)| + if HasPassword(s.tables.users[u]) then 1 else 0
  {
    ReachableIsGood(s);
    hide IdentitiesInv, FlightInv, LinksInv, SessionsInv, ProvenanceInv, Rotation.Inv;
  }

  // No user has two unlinks in flight at once; whole requests run one at a time satisfy this.
  ghost predicate OneUnlinkAtATime(s: State, a: Action) {
    a.UnlinkCount? ==> forall r <- s.flight :: s.flight[r].Unlinking? ==> s.flight[r].user != a.user
  }

  ghost predicate Disciplined(s: State, run: seq<Action>)
    requires Runs(s, run)
    decreases |run|
  {
    run == [] || (OneUnlinkAtATime(s, run[0]) && Disciplined(Step(s, run[0]), run[1..]))
  }

  ghost predicate Reaches(s: State) {
    forall u <- s.tables.users :: Methods(s.tables, u) >= 1
  }

  // An unlink past its guard leaves at least one method, and it is the only one for that user.
  ghost predicate UnlinksInv(s: State) {
    && (forall r <- s.flight :: s.flight[r].Unlinking? ==> Methods(s.tables, s.flight[r].user) >= 2)
    && (forall q, r | q in s.flight && r in s.flight && s.flight[q].Unlinking? && s.flight[r].Unlinking? ::
          s.flight[q].user == s.flight[r].user ==> q == r)
  }

  lemma IdentitiesMove(s: State, a: Action)
    requires Enabled(s, a)
    ensures forall i <- s.tables.identities ::
              || (i in Step(s, a).tables.identities && Step(s, a).tables.identities[i] == s.tables.identities[i])
              || (a.UnlinkDelete? && s.flight[a.req].identity == i
                  && s.tables.identities[i].user == s.flight[a.req].user)
  {
    hide UserByEmail, IdentityBySubject, NormalizeEmail, Start;
  }

  // Only the DELETE of an unlink takes a method away, and at most one from its own user.
  lemma MethodsOnlyDropByUnlink(s: State, a: Action, u: UserId)
    requires Enabled(s, a)
    ensures !(a.UnlinkDelete? && s.flight[a.req].user == u) ==> Methods(Step(s, a).tables, u) >= Methods(s.tables, u)
    ensures Methods(Step(s, a).tables, u) >= Methods(s.tables, u) - 1
  {
    var before, after := s.tables, Step(s, a).tables;
    StepGrowsUsers(s, a);
    IdentitiesMove(s, a);
    hide Step, Enabled;
    if a.UnlinkDelete? && s.flight[a.req].user == u {
      var i := s.flight[a.req].identity;
      assert IdentitiesOf(before.identities, u) <= IdentitiesOf(after.identities, u) + {i};
      SubsetCard(IdentitiesOf(before.identities, u), IdentitiesOf(after.identities, u) + {i});
    } else {
      SubsetCard(IdentitiesOf(before.identities, u), IdentitiesOf(after.identities, u));
    }
  }

  lemma NewUsersCanSignIn(s: State, a: Action, u: UserId)
    requires Enabled(s, a) && u !in s.tables.users && u in Step(s, a).tables.users
    ensures Methods(Step(s, a).tables, u) >= 1
  {
    hide UserByEmail, IdentityBySubject, NormalizeEmail, Start;
    var after := Step(s, a).tables;
    if a.Create? {
      assert a.identity in IdentitiesOf(after.identities, u);
    }
  }

  lemma UnlinkFlights(s: State, a: Action, r: RequestId)
    requires Enabled(s, a) && r in Step(s, a).flight && Step(s, a).flight[r].Unlinking?
    ensures || (r in s.flight && s.flight[r] == Step(s, a).flight[r] && !(a.UnlinkDelete? && a.req == r))
            || (a.UnlinkCount? && r == a.req && Step(s, a).flight[r].user == a.user
                && Methods(s.tables, a.user) >= 2 && Step(s, a).tables == s.tables)
  {
    hide UserByEmail, IdentityBySubject, NormalizeEmail, Start;
  }

  lemma StepKeepsReach(s: State, a: Action)
    requires Reaches(s) && UnlinksInv(s) && Enabled(s, a) && OneUnlinkAtATime(s, a)
    ensures Reaches(Step(s, a)) && UnlinksInv(Step(s, a))
  {
    var s' := Step(s, a);
    forall u <- s'.tables.users ensures Methods(s'.tables, u) >= 1 {
      if u in s.tables.users {
        MethodsOnlyDropByUnlink(s, a, u);
      } else {
        NewUsersCanSignIn(s, a, u);
      }
      hide Step, Methods;
    }
    forall r <- s'.flight | s'.flight[r].Unlinking?
      ensures Methods(s'.tables, s'.flight[r].user) >= 2
      ensures forall q <- s'.flight :: s'.flight[q].Unlinking? && s'.flight[q].user == s'.flight[r].user ==> q == r
    {
      UnlinkFlights(s, a, r);
      MethodsOnlyDropByUnlink(s, a, s'.flight[r].user);
      forall q <- s'.flight | s'.flight[q].Unlinking? ensures s'.flight[q].user == s'.flight[r].user ==> q == r {
        UnlinkFlights(s, a, q);
        hide Step, Methods;
      }
      hide Step, Methods;
    }
    hide Step;
  }

  // With at most one unlink in flight per user, every user always has a way to sign in.
  lemma {:induction false} NeverLockedOut(s: State, run: seq<Action>)
    requires Reaches(s) && UnlinksInv(s) && Runs(s, run) && Disciplined(s, run)
    ensures Reaches(Exec(s, run))
    decreases |run|
  {
    if run != [] {
      StepKeepsReach(s, run[0]);
      hide Step, Enabled, Reaches, UnlinksInv;
      NeverLockedOut(Step(s, run[0]), run[1..]);
    }
  }

  lemma NeverLockedOutFromTheStart(config: Rotation.Config, linkTtl: Time, now: Time, run: seq<Action>, u: UserId)
    requires Runs(Init(config, linkTtl, now), run) && Disciplined(Init(config, linkTtl, now), run)
    requires u in Exec(Init(config, linkTtl, now), run).tables.users
    ensures Methods(Exec(Init(config, linkTtl, now), run).tables, u) >= 1
  {
    NeverLockedOut(Init(config, linkTtl, now), run);
  }

  // What the DELETE of an unlink would have to check again: it leaves its user a way in exactly when
  // there are still two methods at that moment, or the identity is not the user's.
  lemma UnlinkLeavesAWayInExactlyWhen(s: State, r: RequestId)
    requires Enabled(s, UnlinkDelete(r)) && Methods(s.tables, s.flight[r].user) >= 1
    ensures var u, i := s.flight[r].user, s.flight[r].identity;
            Methods(Step(s, UnlinkDelete(r)).tables, u) >= 1
            <==> Methods(s.tables, u) >= 2 || !Owns(s.tables.identities, u, i)
  {
    var u, i := s.flight[r].user, s.flight[r].identity;
    var after := Step(s, UnlinkDelete(r)).tables;
    assert IdentitiesOf(after.identities, u)
        == IdentitiesOf(s.tables.identities, u) - if Owns(s.tables.identities, u, i) then {i} else {};
  }

  lemma BothCount(s: State, u: UserId, i: IdentityId, j: IdentityId, q: RequestId, r: RequestId)
    requires u in s.sessions.log.issued && Methods(s.tables, u) >= 2 && q != r && Idle(s, q) && Idle(s, r)
    ensures var a, b := UnlinkCount(q, u, i), UnlinkCount(r, u, j);
            && Enabled(s, a) && Enabled(Step(s, a), b)
            && var s2 := Step(Step(s, a), b);
            s2.tables == s.tables && s2.flight == s.flight[q := Unlinking(u, i)][r := Unlinking(u, j)]
  {
    var s1 := UnlinkCountStep(s, q, u, i);
    assert Step(s, UnlinkCount(q, u, i)) == s1 && s1 == s.(flight := s.flight[q := Unlinking(u, i)]);
    assert Step(s1, UnlinkCount(r, u, j)) == UnlinkCountStep(s1, r, u, j);
    hide Step, CountAuthMethods;
  }

  lemma BothDelete(s: State, u: UserId, i: IdentityId, j: IdentityId, q: RequestId, r: RequestId)
    requires q != r && q in s.flight && r in s.flight
    requires s.flight[q] == Unlinking(u, i) && s.flight[r] == Unlinking(u, j)
    requires u in s.tables.users && s.tables.users[u].password.None? && IdentitiesOf(s.tables.identities, u) == {i, j}
    ensures var c, d := UnlinkDelete(q), UnlinkDelete(r);
            && Enabled(s, c) && Enabled(Step(s, c), d)
            && Methods(Step(Step(s, c), d).tables, u) == 0
  {
    var s1 := UnlinkDeleteStep(s, q);
    assert Step(s, UnlinkDelete(q)) == s1;
    var s2 := UnlinkDeleteStep(s1, r);
    assert Step(s1, UnlinkDelete(r)) == s2;
    hide Step;
    assert i in IdentitiesOf(s.tables.identities, u) && j in IdentitiesOf(s.tables.identities, u);
    assert s2.tables.identities == s.tables.identities - {i} - {j};
    assert IdentitiesOf(s2.tables.identities, u) == IdentitiesOf(s.tables.identities, u) - {i} - {j};
  }

  function OverlappingUnlinks(q: RequestId, r: RequestId, u: UserId, i: IdentityId, j: IdentityId): seq<Action> {
    [UnlinkCount(q, u, i), UnlinkCount(r, u, j)] + [UnlinkDelete(q), UnlinkDelete(r)]
  }

  // Without that discipline the guard is not enough: two unlinks that both count before either
  // deletes take the last two methods away.
  lemma OverlappingUnlinksLockOut(s: State, u: UserId, i: IdentityId, j: IdentityId, q: RequestId, r: RequestId)
    requires u in s.tables.users && s.tables.users[u].password.None? && u in s.sessions.log.issued
    requires i != j && IdentitiesOf(s.tables.identities, u) == {i, j}
    requires q != r && Idle(s, q) && Idle(s, r)
    ensures Runs(s, OverlappingUnlinks(q, r, u, i, j))
    ensures Methods(Exec(s, OverlappingUnlinks(q, r, u, i, j)).tables, u) == 0
  {
    BothCount(s, u, i, j, q, r);
    var s2 := Step(Step(s, UnlinkCount(q, u, i)), UnlinkCount(r, u, j));
    BothDelete(s2, u, i, j, q, r);
    TwoSteps(s, UnlinkCount(q, u, i), UnlinkCount(r, u, j));
    TwoSteps(s2, UnlinkDelete(q), UnlinkDelete(r));
    hide Step, Enabled, Methods, Runs, Exec;
    Join(s, [UnlinkCount(q, u, i), UnlinkCount(r, u, j)], [UnlinkDelete(q), UnlinkDelete(r)]);
  }

  // How a user comes to have two provider accounts and no password: a first provider sign-in, and a
  // second provider account linked with the session it starts.
  ghost function TwoProvidersRun(first: Claims, second: Claims): seq<Action> {
    [SignIn(0, "google", first, "", 0), FindUser(0)] + [Create(0, 1, 1, 0), LinkSignedIn(1, "google", second, 2)]
  }

  lemma FirstSignInSeeks(s: State, c: Claims)
    requires s.tables.users == map[] && s.tables.identities == map[] && s.flight == map[]
    requires s.sessions.flight == map[] && s.sessions.log.owner == map[]
    requires c.emailVerified && c.subject != "" && c.email != ""
    ensures Enabled(s, SignIn(0, "google", c, "", 0))
    ensures Enabled(Step(s, SignIn(0, "google", c, "", 0)), FindUser(0))
    ensures Step(Step(s, SignIn(0, "google", c, "", 0)), FindUser(0))
            == s.(flight := map[0 := Creating("google", c, "")])
  {
    hide NormalizeEmail;
    var s1 := s.(flight := map[0 := Seeking("google", c, "")]);
    assert Step(s, SignIn(0, "google", c, "", 0)) == s1;
  }

  lemma CreateThenLink(s: State, first: Claims, second: Claims)
    requires s.tables.users == map[] && s.tables.identities == map[]
    requires s.flight == map[0 := Creating("google", first, "")]
    requires s.sessions.flight == map[] && s.sessions.log.owner == map[]
    requires second.emailVerified && second.subject != first.subject
    ensures var a, b := Create(0, 1, 1, 0), LinkSignedIn(1, "google", second, 2);
            && Enabled(s, a) && Enabled(Step(s, a), b)
            && var s' := Step(Step(s, a), b);
            && 1 in s'.tables.users && s'.tables.users[1].password.None? && 1 in s'.sessions.log.issued
            && IdentitiesOf(s'.tables.identities, 1) == {1, 2} && Idle(s', 1) && Idle(s', 2)
  {
    hide NormalizeEmail;
    var s1 := CreateStep(s, 0, 1, 1, 0);
    assert Step(s, Create(0, 1, 1, 0)) == s1;
    assert s1.tables.identities == map[1 := Identity(1, "google", first.subject, first.email)];
    assert s1.flight == map[] && 1 in s1.sessions.log.issued && s1.sessions.flight.Keys == {0};
    assert IdentityBySubject(s1.tables.identities, "google", second.subject).None?;
    var s2 := LinkSignedInStep(s1, 1, "google", second, 2);
    assert Step(s1, LinkSignedIn(1, "google", second, 2)) == s2;
    hide Step, Start;
  }

  lemma TwoProvidersHappen(config: Rotation.Config, linkTtl: Time, now: Time, first: Claims, second: Claims)
    requires first.emailVerified && first.subject != "" && first.email != ""
    requires second.emailVerified && second.subject != first.subject
    ensures var s0 := Init(config, linkTtl, now);
            && Runs(s0, TwoProvidersRun(first, second))
            && var s := Exec(s0, TwoProvidersRun(first, second));
            && 1 in s.tables.users && s.tables.users[1].password.None? && 1 in s.sessions.log.issued
            && IdentitiesOf(s.tables.identities, 1) == {1, 2} && Idle(s, 1) && Idle(s, 2)
  {
    var s0 := Init(config, linkTtl, now);
    FirstSignInSeeks(s0, first);
    var s2 := Step(Step(s0, SignIn(0, "google", first, "", 0)), FindUser(0));
    CreateThenLink(s2, first, second);
    hide Step, Enabled, Runs, Exec, Init;
    TwoSteps(s0, SignIn(0, "google", first, "", 0), FindUser(0));
    TwoSteps(s2, Create(0, 1, 1, 0), LinkSignedIn(1, "google", second, 2));
    Join(s0, [SignIn(0, "google", first, "", 0), FindUser(0)],
         [Create(0, 1, 1, 0), LinkSignedIn(1, "google", second, 2)]);
  }

  lemma {:induction false} UsersRemain(s: State, run: seq<Action>)
    requires Runs(s, run)
    ensures UsersGrow(s.tables.users, Exec(s, run).tables.users)
    decreases |run|
  {
    if run != [] {
      StepGrowsUsers(s, run[0]);
      hide Step, Enabled;
      UsersRemain(Step(s, run[0]), run[1..]);
    }
  }

  // So somebody can be locked out for real: two unlinks of that user, overlapping.
  lemma LockOutIsReachable(config: Rotation.Config, linkTtl: Time, now: Time, first: Claims, second: Claims)
    requires first.emailVerified && first.subject != "" && first.email != ""
    requires second.emailVerified && second.subject != first.subject
    ensures var run := TwoProvidersRun(first, second) + OverlappingUnlinks(1, 2, 1, 1, 2);
            var s0 := Init(config, linkTtl, now);
            Runs(s0, run) && 1 in Exec(s0, run).tables.users && Methods(Exec(s0, run).tables, 1) == 0
  {
    hide Init, Runs, Exec, Methods, Idle;
    var s0 := Init(config, linkTtl, now);
    TwoProvidersHappen(config, linkTtl, now, first, second);
    var s := Exec(s0, TwoProvidersRun(first, second));
    OverlappingUnlinksLockOut(s, 1, 1, 2, 1, 2);
    UsersRemain(s, OverlappingUnlinks(1, 2, 1, 1, 2));
    Join(s0, TwoProvidersRun(first, second), OverlappingUnlinks(1, 2, 1, 1, 2));
  }
}
