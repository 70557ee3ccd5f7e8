// Whole requests are runs of the interleaved machine: a use case run to its end has the effect on the
// tables, and gives the answer, that its function in Requests says, and leaves nothing in flight.

module RequestRuns {
  import opened Core
  import opened Text
  import opened AccountTables
  import opened RefreshTokens
  import opened Requests
  import A = Accounts
  import R = Rotation
  import Password
  import RotationSafety
  import VerificationLinks

  // A request that has come to its end has left the other requests as they were.
  ghost predicate Ended(s: A.State, end: A.State) {
    end.flight == s.flight && end.sessions.flight == s.sessions.flight
  }

  // An answered session is real: its refresh token is stored, unspent, for its user and its lifetime,
  // and an access token was minted for that user.
  ghost predicate Backs(sessions: R.State, a: Session) {
    var h := Sha256(a.refreshToken);
    && h in sessions.rows && Live(sessions.rows[h])
    && sessions.rows[h].user == a.user && sessions.rows[h].expiresAt == sessions.now + a.refreshTtl
    && a.user in sessions.log.issued
  }

  // ----- Refresh and Logout -----

  lemma SpendThenInsert(s: R.State, r: RequestId, h: Hash, p: Platform, next: Hash)
    requires R.NewRequest(s, r) && R.Fresh(s, next) && next != h && Spendable(s.rows, h, s.now)
    ensures R.Enabled(s, R.Present(r, h, p)) && R.Enabled(R.Step(s, R.Present(r, h, p)), R.Insert(r, next, s.now))
    ensures var end := R.Step(R.Step(s, R.Present(r, h, p)), R.Insert(r, next, s.now));
            var platform := if p == "" then None else Some(p);
            var row := Row(s.rows[h].user, s.rows[h].family, platform, None, None, s.now + R.Ttl(s.config, p));
            && end.rows == Use(s.rows, h, s.now)[next := row]
            && end.flight == s.flight && end.now == s.now && row.user in end.log.issued
            && end.log.spentBy == s.log.spentBy[h := r]
  {
    var s1 := R.PresentStep(s, r, h, p);
    assert s1.flight == s.flight[r := R.Minting(s.rows[h].family, s.rows[h].user, p, s.now)];
    assert s1.rows == Use(s.rows, h, s.now);
    hide R.PresentStep;
  }

  // The statements of one Refresh.
  ghost function RefreshRun(s: R.State, r: RequestId, plain: string, p: Platform, token: string): seq<R.Action> {
    var h := Sha256(plain);
    if plain == "" then []
    else if Spendable(s.rows, h, s.now) then [R.Present(r, h, p), R.Insert(r, Sha256(token), s.now)]
    else if h in s.rows && s.rows[h].usedAt.Some? then RotationSafety.ReplayRun(r, h, p)
    else [R.Present(r, h, p), R.Lookup(r)]
  }

  // A successful Refresh is the spend, by this request, followed by the INSERT.
  lemma RotateIsARun(s: R.State, r: RequestId, h: Hash, p: Platform, next: Hash)
    requires R.NewRequest(s, r) && R.Fresh(s, next) && next != h && Spendable(s.rows, h, s.now)
    ensures var run := [R.Present(r, h, p), R.Insert(r, next, s.now)];
            && R.Runs(s, run)
            && R.Exec(s, run) == R.Step(R.Step(s, R.Present(r, h, p)), R.Insert(r, next, s.now))
  {
    SpendThenInsert(s, r, h, p, next);
    R.TwoSteps(s, R.Present(r, h, p), R.Insert(r, next, s.now));
  }

  // A refused Refresh revokes the family of a spent token, and does nothing else.
  lemma RefuseIsARun(s: R.State, r: RequestId, plain: string, p: Platform, token: string)
    requires R.NewRequest(s, r) && plain != "" && !Spendable(s.rows, Sha256(plain), s.now)
    ensures var h, run := Sha256(plain), RefreshRun(s, r, plain, p, token);
            && R.Runs(s, run)
            && var end := R.Exec(s, run);
            && end.flight == s.flight && end.log == s.log && end.now == s.now
            && end.rows == if h in s.rows && s.rows[h].usedAt.Some? then RevokeFamily(s.rows, s.rows[h].family, s.now)
                           else s.rows
  {
    var h := Sha256(plain);
    var s1 := R.PresentStep(s, r, h, p);
    assert s1 == s.(presented := s.presented[r := R.ToRefresh(h)], flight := s.flight[r := R.Failed(h)]);
    var s2 := R.LookupStep(s1, r);
    assert R.Step(s, R.Present(r, h, p)) == s1 && R.Step(s1, R.Lookup(r)) == s2;
    if h in s.rows && s.rows[h].usedAt.Some? {
      assert s2.flight == s.flight[r := R.Revoking(s.rows[h].family)];
      R.ThreeSteps(s, R.Present(r, h, p), R.Lookup(r), R.Revoke(r));
    } else {
      R.TwoSteps(s, R.Present(r, h, p), R.Lookup(r));
    }
  }

  // The statements of one Logout.
  ghost function LogoutRun(s: R.State, r: RequestId, plain: string): seq<R.Action> {
    var h := Sha256(plain);
    if plain == "" then []
    else if h in s.rows then [R.LogoutLookup(r, h), R.Revoke(r)]
    else [R.LogoutLookup(r, h)]
  }

  // Statements on refresh tokens, as steps of the account machine.
  function OnSessions(run: seq<R.Action>): seq<A.Action> {
    if run == [] then [] else [A.Session(run[0])] + OnSessions(run[1..])
  }

  lemma {:induction false} SessionsRun(s: A.State, run: seq<R.Action>)
    requires R.Runs(s.sessions, run) && forall a <- run :: !a.Begin?
    ensures A.Runs(s, OnSessions(run))
    ensures A.Exec(s, OnSessions(run)) == s.(sessions := R.Exec(s.sessions, run))
    decreases |run|
  {
    if run != [] {
      var s1 := s.(sessions := R.Step(s.sessions, run[0]));
      assert run[0] in run && A.Enabled(s, A.Session(run[0])) && A.Step(s, A.Session(run[0])) == s1;
      hide A.Step, A.Enabled, R.Step, R.Enabled;
      SessionsRun(s1, run[1..]);
      A.Lead(s, A.Session(run[0]), OnSessions(run[1..]), A.Exec(s1, OnSessions(run[1..])));
    }
  }

  lemma NoSessionsRun(s: A.State)
    ensures A.Runs(s, OnSessions([])) && A.Exec(s, OnSessions([])) == s
  {
  }

  lemma RotationIsARun(s: A.State, r: RequestId, plain: string, p: Platform, token: string)
    requires R.NewRequest(s.sessions, r) && R.Fresh(s.sessions, Sha256(token)) && token != plain
    requires plain != "" && Spendable(s.sessions.rows, Sha256(plain), s.sessions.now)
    ensures var run := OnSessions(RefreshRun(s.sessions, r, plain, p, token));
            var (db, answer) := Refresh(DbOf(s), s.sessions.config, plain, p, token);
            && A.Runs(s, run)
            && var end := A.Exec(s, run);
            && DbOf(end) == db && Ended(s, end) && Backs(end.sessions, answer.value)
            && end.sessions.log.spentBy == s.sessions.log.spentBy[Sha256(plain) := r]
  {
    var h := Sha256(plain);
    hide R.Step, R.Enabled, R.Runs, R.Exec, A.Runs, A.Exec, OnSessions, R.Fresh, R.NewRequest, Spendable;
    SpendThenInsert(s.sessions, r, h, p, Sha256(token));
    RotateIsARun(s.sessions, r, h, p, Sha256(token));
    SessionsRun(s, RefreshRun(s.sessions, r, plain, p, token));
  }

  // A Refresh run to its end: a session that is backed, exactly when this request spent the token.
  lemma RefreshIsARun(s: A.State, r: RequestId, plain: string, p: Platform, token: string)
    requires R.NewRequest(s.sessions, r) && R.Fresh(s.sessions, Sha256(token)) && token != plain
    ensures var run := OnSessions(RefreshRun(s.sessions, r, plain, p, token));
            var (db, answer) := Refresh(DbOf(s), s.sessions.config, plain, p, token);
            && A.Runs(s, run)
            && var end := A.Exec(s, run);
            && DbOf(end) == db && Ended(s, end)
            && (answer.Ok? ==> Backs(end.sessions, answer.value)
                               && end.sessions.log.spentBy == s.sessions.log.spentBy[Sha256(plain) := r])
            && (answer.Err? ==> answer.error == RefreshInvalid && end.sessions.log == s.sessions.log)
  {
    hide R.Step, R.Enabled, R.Runs, R.Exec, A.Runs, A.Exec, OnSessions, R.Fresh, R.NewRequest, Spendable, Backs;
    if plain == "" {
      NoSessionsRun(s);
    } else if Spendable(s.sessions.rows, Sha256(plain), s.sessions.now) {
      RotationIsARun(s, r, plain, p, token);
    } else {
      RefuseIsARun(s.sessions, r, plain, p, token);
      SessionsRun(s, RefreshRun(s.sessions, r, plain, p, token));
    }
  }

  lemma LeaveIsARun(s: R.State, r: RequestId, plain: string)
    requires R.NewRequest(s, r)
    ensures R.Runs(s, LogoutRun(s, r, plain))
    ensures var h, end := Sha256(plain), R.Exec(s, LogoutRun(s, r, plain));
            && end.flight == s.flight && end.log == s.log && end.now == s.now
            && end.rows == if plain != "" && h in s.rows then RevokeFamily(s.rows, s.rows[h].family, s.now) else s.rows
  {
    var h := Sha256(plain);
    var s1 := R.LogoutStep(s, r, h);
    if plain != "" && h in s.rows {
      assert s1.flight == s.flight[r := R.Revoking(s.rows[h].family)];
      R.TwoSteps(s, R.LogoutLookup(r, h), R.Revoke(r));
    } else if plain != "" {
      assert R.Runs(s1, []) && R.Exec(s1, []) == s1;
    }
  }

  lemma LogoutIsARun(s: A.State, r: RequestId, plain: string)
    requires R.NewRequest(s.sessions, r)
    ensures var run := OnSessions(LogoutRun(s.sessions, r, plain));
            && A.Runs(s, run)
            && DbOf(A.Exec(s, run)) == Logout(DbOf(s), plain)
            && Ended(s, A.Exec(s, run)) && A.Exec(s, run).sessions.log == s.sessions.log
  {
    LeaveIsARun(s.sessions, r, plain);
    hide R.Step, R.Enabled, R.Runs, R.Exec, A.Runs, A.Exec, OnSessions;
    if plain == "" {
      NoSessionsRun(s);
    } else {
      SessionsRun(s, LogoutRun(s.sessions, r, plain));
    }
  }

  // ----- Starting a session -----

  predicate FreshIn(s: A.State, drawn: Drawn) {
    && drawn.user !in s.tables.users && drawn.identity !in s.tables.identities
    && drawn.family !in s.sessions.log.owner && R.Fresh(s.sessions, Sha256(drawn.token))
  }

  // The INSERT of a new refresh token.
  ghost function InsertOf(s: A.State, r: RequestId, drawn: Drawn): A.Action {
    A.Session(R.Insert(r, Sha256(drawn.token), s.sessions.now))
  }

  // What the last statement of a sign-in leaves behind: the tables and the session.
  ghost predicate Issues(s: A.State, db: Db, c: Config, r: RequestId, u: UserId, p: Platform, drawn: Drawn) {
    var (after, answer) := IssueSession(db, c, u, drawn.family, p, drawn.token);
    && A.Enabled(s, InsertOf(s, r, drawn))
    && var end := A.Step(s, InsertOf(s, r, drawn));
    && DbOf(end) == after && Backs(end.sessions, answer.value)
    && end.flight == s.flight && end.sessions.flight == s.sessions.flight - {r}
  }

  lemma InsertEnds(s: A.State, c: Config, r: RequestId, u: UserId, p: Platform, drawn: Drawn)
    requires r in s.sessions.flight && s.sessions.flight[r] == R.Minting(drawn.family, u, p, s.sessions.now)
    requires R.Fresh(s.sessions, Sha256(drawn.token)) && s.sessions.config == c && u in s.sessions.log.issued
    ensures Issues(s, DbOf(s), c, r, u, p, drawn)
  {
    var end := R.InsertStep(s.sessions, r, Sha256(drawn.token), s.sessions.now);
    assert A.Step(s, InsertOf(s, r, drawn)) == s.(sessions := end);
    hide R.Fresh;
  }

  lemma StartLeaves(sessions: R.State, r: RequestId, u: UserId, f: FamilyId, p: Platform)
    requires r !in sessions.flight && f !in sessions.log.owner
    ensures var s' := A.Start(sessions, r, u, f, p);
            && s'.flight == sessions.flight[r := R.Minting(f, u, p, sessions.now)]
            && s'.rows == sessions.rows && s'.now == sessions.now && s'.config == sessions.config
            && u in s'.log.issued
            && (forall h :: R.Fresh(sessions, h) ==> R.Fresh(s', h))
  {
  }

  // ----- Password login -----

  ghost predicate LoginAccepted(s: A.State, argon: Password.Argon, email: string, password: string) {
    var u := UserByEmail(s.tables.users, NormalizeEmail(email));
    && u.Some? && HasPassword(s.tables.users[u.value])
    && Password.VerifyPassword(argon, password, s.tables.users[u.value].password.value) == Ok(true)
  }

  // The statements of one login: the look-up and, when it is let through, the INSERT.
  ghost function LoginRun(s: A.State, r: RequestId, argon: Password.Argon, email: string, password: string, p: Platform,
                          drawn: Drawn): seq<A.Action>
  {
    [A.Login(r, email, LoginAccepted(s, argon, email, password), drawn.family, p)]
    + if Login(DbOf(s), s.sessions.config, argon, email, password, p, drawn).1.Ok? then [InsertOf(s, r, drawn)] else []
  }

  // The server after a sign-in whose INSERT comes last.
  lemma SignedIn(s: A.State, last: A.State, db: Db, c: Config, r: RequestId, u: UserId, p: Platform, drawn: Drawn)
    requires r !in s.sessions.flight && last.sessions.now == s.sessions.now
    requires last.flight == s.flight && last.sessions.flight.Keys == s.sessions.flight.Keys + {r}
    requires forall q <- s.sessions.flight :: last.sessions.flight[q] == s.sessions.flight[q]
    requires Issues(last, db, c, r, u, p, drawn)
    ensures InsertOf(last, r, drawn) == InsertOf(s, r, drawn)
    ensures A.Enabled(last, InsertOf(s, r, drawn))
    ensures var (after, answer) := IssueSession(db, c, u, drawn.family, p, drawn.token);
            var end := A.Step(last, InsertOf(s, r, drawn));
            DbOf(end) == after && Backs(end.sessions, answer.value) && Ended(s, end)
  {
    hide A.Step, A.Enabled, Backs;
    assert last.sessions.flight - {r} == s.sessions.flight;
  }

  // A login run to its end: a backed session, or nothing changed; and whether the address is verified is
  // only told to those who know the password.
  lemma LoginIsARun(s: A.State, r: RequestId, argon: Password.Argon, email: string, password: string, p: Platform,
                    drawn: Drawn)
    requires A.Idle(s, r) && FreshIn(s, drawn)
    ensures var run := LoginRun(s, r, argon, email, password, p, drawn);
            var (db, answer) := Login(DbOf(s), s.sessions.config, argon, email, password, p, drawn);
            && A.Runs(s, run)
            && var end := A.Exec(s, run);
            && DbOf(end) == db && Ended(s, end)
            && (answer.Ok? ==> Backs(end.sessions, answer.value))
            && (answer.Err? ==> end == s)
            && (answer == Err(EmailNotVerified) ==> LoginAccepted(s, argon, email, password))
            && (answer == Err(InvalidCredentials) ==> !LoginAccepted(s, argon, email, password))
  {
    hide UserByEmail, NormalizeEmail, Password.VerifyPassword, A.Start, R.Fresh, Issues;
    var first := A.Login(r, email, LoginAccepted(s, argon, email, password), drawn.family, p);
    var s1 := A.Step(s, first);
    if Login(DbOf(s), s.sessions.config, argon, email, password, p, drawn).1.Ok? {
      var u := UserByEmail(s.tables.users, NormalizeEmail(email)).value;
      StartLeaves(s.sessions, r, u, drawn.family, p);
      assert s1 == s.(sessions := A.Start(s.sessions, r, u, drawn.family, p));
      InsertEnds(s1, s.sessions.config, r, u, p, drawn);
      SignedIn(s, s1, DbOf(s), s.sessions.config, r, u, p, drawn);
      A.TwoSteps(s, first, InsertOf(s, r, drawn));
      hide A.Step, A.Enabled;
      assert [first] + [InsertOf(s, r, drawn)] == [first, InsertOf(s, r, drawn)];
    } else {
      assert s1 == s;
      A.OneStep(s, first);
      hide A.Step, A.Enabled;
      assert [first] + [] == [first];
    }
  }

  // ----- Provider sign-in -----

  // The statements of one provider sign-in, the INSERT of its refresh token included.
  ghost function SignInRun(s: A.State, r: RequestId, provider: string, c: Claims, p: Platform,
                           drawn: Drawn): seq<A.Action>
  {
    var first := A.SignIn(r, provider, c, p, drawn.family);
    var u := UserByEmail(s.tables.users, NormalizeEmail(c.email));
    if !c.emailVerified || c.subject == "" || c.email == "" then [first]
    else if IdentityBySubject(s.tables.identities, provider, c.subject).Some? then [first, InsertOf(s, r, drawn)]
    else if u.None? then
      [first, A.FindUser(r)] + [A.Create(r, drawn.user, drawn.identity, drawn.family), InsertOf(s, r, drawn)]
    else if !Verified(s.tables.users[u.value]) then [first, A.FindUser(r)]
    else [first, A.FindUser(r)] + [A.LinkFound(r, drawn.identity, drawn.family), InsertOf(s, r, drawn)]
  }

  // The first two statements of a sign-in whose identity is unknown.
  lemma SeekThenFind(s: A.State, r: RequestId, provider: string, c: Claims, p: Platform, f: FamilyId)
    requires A.Idle(s, r) && A.CanStart(s, r, f)
    requires c.emailVerified && c.subject != "" && c.email != ""
    requires IdentityBySubject(s.tables.identities, provider, c.subject).None?
    ensures var first := A.SignIn(r, provider, c, p, f);
            && A.Enabled(s, first)
            && var s1 := A.Step(s, first);
            && A.Enabled(s1, A.FindUser(r))
            && var u := UserByEmail(s.tables.users, NormalizeEmail(c.email));
            && A.Step(s1, A.FindUser(r)) == s.(flight :=
                 if u.None? then s.flight[r := A.Creating(provider, c, p)]
                 else if !Verified(s.tables.users[u.value]) then s.flight
                 else s.flight[r := A.Linking(u.value, provider, c, p)])
  {
    hide UserByEmail, IdentityBySubject, NormalizeEmail;
    var s1 := s.(flight := s.flight[r := A.Seeking(provider, c, p)]);
    assert A.Step(s, A.SignIn(r, provider, c, p, f)) == s1;
    assert s1.flight - {r} == s.flight;
  }

  lemma CreateThenInsert(s: A.State, c: Config, r: RequestId, drawn: Drawn)
    requires r in s.flight && s.flight[r].Creating? && r !in s.sessions.flight && s.sessions.config == c
    requires FreshIn(s, drawn) && UserByEmail(s.tables.users, NormalizeEmail(s.flight[r].claims.email)).None?
    requires IdentityBySubject(s.tables.identities, s.flight[r].provider, s.flight[r].claims.subject).None?
    ensures var pc, create := s.flight[r], A.Create(r, drawn.user, drawn.identity, drawn.family);
            var user := User(NormalizeEmail(pc.claims.email), Some(s.sessions.now), None);
            var identities := CreateIdentity(s.tables.identities, drawn.identity, drawn.user, pc.provider, pc.claims);
            && A.Enabled(s, create)
            && var s1 := A.Step(s, create);
            && s1.flight == s.flight - {r} && s1.sessions.now == s.sessions.now
            && s1.sessions.flight
               == s.sessions.flight[r := R.Minting(drawn.family, drawn.user, pc.platform, s.sessions.now)]
            && Issues(s1, DbOf(s).(users := s.tables.users[drawn.user := user], identities := identities),
                      c, r, drawn.user, pc.platform, drawn)
  {
    hide UserByEmail, IdentityBySubject, NormalizeEmail, A.Start, Issues;
    var s1 := A.Step(s, A.Create(r, drawn.user, drawn.identity, drawn.family));
    StartLeaves(s.sessions, r, drawn.user, drawn.family, s.flight[r].platform);
    InsertEnds(s1, c, r, drawn.user, s.flight[r].platform, drawn);
  }

  lemma LinkThenInsert(s: A.State, c: Config, r: RequestId, drawn: Drawn)
    requires r in s.flight && s.flight[r].Linking? && r !in s.sessions.flight && s.sessions.config == c
    requires FreshIn(s, drawn)
    requires IdentityBySubject(s.tables.identities, s.flight[r].provider, s.flight[r].claims.subject).None?
    ensures var pc, link := s.flight[r], A.LinkFound(r, drawn.identity, drawn.family);
            var identities := CreateIdentity(s.tables.identities, drawn.identity, pc.user, pc.provider, pc.claims);
            && A.Enabled(s, link)
            && var s1 := A.Step(s, link);
            && s1.flight == s.flight - {r} && s1.sessions.now == s.sessions.now
            && s1.sessions.flight
               == s.sessions.flight[r := R.Minting(drawn.family, pc.user, pc.platform, s.sessions.now)]
            && Issues(s1, DbOf(s).(identities := identities), c, r, pc.user, pc.platform, drawn)
  {
    hide IdentityBySubject, A.Start, Issues;
    var s1 := A.Step(s, A.LinkFound(r, drawn.identity, drawn.family));
    StartLeaves(s.sessions, r, s.flight[r].user, drawn.family, s.flight[r].platform);
    InsertEnds(s1, c, r, s.flight[r].user, s.flight[r].platform, drawn);
  }

  // A sign-in whose last account statement has been reached ends with its INSERT.
  lemma InsertFinishes(s: A.State, first: A.Action, find: A.Action, last: A.Action, db: Db, c: Config, r: RequestId,
                       u: UserId, p: Platform, drawn: Drawn)
    requires A.Enabled(s, first) && A.Enabled(A.Step(s, first), find)
    requires A.Enabled(A.Step(A.Step(s, first), find), last)
    requires var s3 := A.Step(A.Step(A.Step(s, first), find), last);
             && r !in s.sessions.flight && s3.sessions.now == s.sessions.now && s3.flight == s.flight
             && s3.sessions.flight == s.sessions.flight[r := R.Minting(drawn.family, u, p, s.sessions.now)]
             && Issues(s3, db, c, r, u, p, drawn)
    ensures var run := [first, find] + [last, InsertOf(s, r, drawn)];
            var (after, answer) := IssueSession(db, c, u, drawn.family, p, drawn.token);
            && A.Runs(s, run)
            && var end := A.Exec(s, run);
            && DbOf(end) == after && Ended(s, end) && Backs(end.sessions, answer.value)
  {
    hide A.Step, A.Enabled, A.Exec, A.Runs, Issues, Backs, Ended;
    var s2 := A.Step(A.Step(s, first), find);
    var s3 := A.Step(s2, last);
    SignedIn(s, s3, db, c, r, u, p, drawn);
    A.TwoSteps(s, first, find);
    A.TwoSteps(s2, last, InsertOf(s, r, drawn));
    A.Join(s, [first, find], [last, InsertOf(s, r, drawn)]);
  }

  // The accounts after a sign-in by address has created or linked.
  ghost function SignInTables(s: A.State, provider: string, c: Claims, drawn: Drawn): Db {
    var email := NormalizeEmail(c.email);
    var u := UserByEmail(s.tables.users, email);
    if u.None? then
      DbOf(s).(users := s.tables.users[drawn.user := User(email, Some(s.sessions.now), None)],
               identities := CreateIdentity(s.tables.identities, drawn.identity, drawn.user, provider, c))
    else
      DbOf(s).(identities := CreateIdentity(s.tables.identities, drawn.identity, u.value, provider, c))
  }

  lemma SignInByEmailIsARun(s: A.State, r: RequestId, provider: string, c: Claims, p: Platform, drawn: Drawn)
    requires A.Idle(s, r) && FreshIn(s, drawn)
    requires c.emailVerified && c.subject != "" && c.email != ""
    requires IdentityBySubject(s.tables.identities, provider, c.subject).None?
    ensures var run := SignInRun(s, r, provider, c, p, drawn);
            var (db, answer) := SignIn(DbOf(s), s.sessions.config, provider, c, p, drawn);
            && A.Runs(s, run)
            && var end := A.Exec(s, run);
            && DbOf(end) == db && Ended(s, end)
            && (answer.Ok? ==> Backs(end.sessions, answer.value))
            && (answer.Err? ==> end == s)
  {
    hide UserByEmail, IdentityBySubject, NormalizeEmail, A.Start, Issues, R.Fresh, A.Step, A.Enabled, Backs;
    var u := UserByEmail(s.tables.users, NormalizeEmail(c.email));
    var first := A.SignIn(r, provider, c, p, drawn.family);
    SeekThenFind(s, r, provider, c, p, drawn.family);
    var s2 := A.Step(A.Step(s, first), A.FindUser(r));
    if u.Some? && !Verified(s.tables.users[u.value]) {
      assert s2 == s;
      A.TwoSteps(s, first, A.FindUser(r));
    } else {
      var db := SignInTables(s, provider, c, drawn);
      if u.None? {
        CreateThenInsert(s2, s.sessions.config, r, drawn);
        InsertFinishes(s, first, A.FindUser(r), A.Create(r, drawn.user, drawn.identity, drawn.family), db,
                       s.sessions.config, r, drawn.user, p, drawn);
      } else {
        LinkThenInsert(s2, s.sessions.config, r, drawn);
        InsertFinishes(s, first, A.FindUser(r), A.LinkFound(r, drawn.identity, drawn.family), db,
                       s.sessions.config, r, u.value, p, drawn);
      }
      hide A.Exec, A.Runs;
    }
  }

  // A provider sign-in run to its end, whichever branch of the linking policy it takes: a backed session,
  // or nothing changed.
  lemma SignInIsARun(s: A.State, r: RequestId, provider: string, c: Claims, p: Platform, drawn: Drawn)
    requires A.Idle(s, r) && FreshIn(s, drawn)
    ensures var run := SignInRun(s, r, provider, c, p, drawn);
            var (db, answer) := SignIn(DbOf(s), s.sessions.config, provider, c, p, drawn);
            && A.Runs(s, run)
            && var end := A.Exec(s, run);
            && DbOf(end) == db && Ended(s, end)
            && (answer.Ok? ==> Backs(end.sessions, answer.value))
            && (answer.Err? ==> end == s)
            && (answer == Err(LinkNeedsVerifiedEmail) <==> |run| == 2 && run[1] == A.FindUser(r))
            && (answer.Err? && answer != Err(LinkNeedsVerifiedEmail) <==> |run| == 1)
  {
    hide UserByEmail, IdentityBySubject, NormalizeEmail, A.Start, Issues, R.Fresh;
    var i := IdentityBySubject(s.tables.identities, provider, c.subject);
    var first := A.SignIn(r, provider, c, p, drawn.family);
    var s1 := A.Step(s, first);
    if !c.emailVerified || c.subject == "" || c.email == "" {
      assert s1 == s;
      A.OneStep(s, first);
    } else if i.Some? {
      var u := s.tables.identities[i.value].user;
      StartLeaves(s.sessions, r, u, drawn.family, p);
      assert s1 == s.(sessions := A.Start(s.sessions, r, u, drawn.family, p));
      InsertEnds(s1, s.sessions.config, r, u, p, drawn);
      SignedIn(s, s1, DbOf(s), s.sessions.config, r, u, p, drawn);
      A.TwoSteps(s, first, InsertOf(s, r, drawn));
    } else {
      SignInByEmailIsARun(s, r, provider, c, p, drawn);
    }
    hide A.Step, A.Enabled, A.Exec, A.Runs;
  }

  // ----- Unlinking -----

  // The statements of one unlink: the count, then the DELETE.
  ghost function UnlinkRun(s: A.State, r: RequestId, u: UserId, i: IdentityId): seq<A.Action> {
    if CountAuthMethods(s.tables.users, s.tables.identities, u) <= 1 then [A.UnlinkCount(r, u, i)]
    else [A.UnlinkCount(r, u, i), A.UnlinkDelete(r)]
  }

  // An unlink run to its end: refused before the DELETE when only one method is left, refused by the
  // DELETE when the identity is not the user's, and otherwise exactly that identity is gone.
  lemma UnlinkIsARun(s: A.State, r: RequestId, u: UserId, i: IdentityId)
    requires A.Enabled(s, A.UnlinkCount(r, u, i))
    ensures var run := UnlinkRun(s, r, u, i);
            var (db, answer) := Unlink(DbOf(s), u, i);
            && A.Runs(s, run)
            && var end := A.Exec(s, run);
            && DbOf(end) == db && Ended(s, end)
            && (answer == Err(LastAuthMethod) <==> |run| == 1)
            && (answer.Err? ==> end == s)
            && (answer.Ok? <==> i in s.tables.identities && i !in end.tables.identities)
  {
    var s1 := A.Step(s, A.UnlinkCount(r, u, i));
    if CountAuthMethods(s.tables.users, s.tables.identities, u) <= 1 {
      A.OneStep(s, A.UnlinkCount(r, u, i));
    } else {
      assert s1 == s.(flight := s.flight[r := A.Unlinking(u, i)]) && s1.flight - {r} == s.flight;
      A.TwoSteps(s, A.UnlinkCount(r, u, i), A.UnlinkDelete(r));
      hide A.Exec, A.Runs, CountAuthMethods;
    }
  }

  // ----- Addresses, links and identities -----

  lemma RegisterMoves(s: A.State, r: RequestId, id: UserId, email: string, password: string, link: string)
    requires A.Idle(s, r)
    ensures DbOf(VerificationLinks.RegisterAll(s, r, id, email, password, Some(Sha256(link))))
            == if UserByEmail(s.tables.users, NormalizeEmail(email)).Some? then DbOf(s)
               else DbOf(s).(users := CreateUser(s.tables.users, id, NormalizeEmail(email), Some(password)),
                             links := s.tables.links[Sha256(link) := Link(id, None, s.sessions.now + s.linkTtl)])
  {
    hide UserByEmail, NormalizeEmail;
  }

  // What these requests do to the tables depends on the tables and the clock, not on what else is in
  // flight or has happened.
  lemma TablesDecideRegister(s: A.State, r: RequestId, id: UserId, email: string, password: string, link: string)
    requires A.Idle(s, r)
    ensures DbOf(VerificationLinks.RegisterAll(s, r, id, email, password, Some(Sha256(link))))
            == Register(DbOf(s), s.linkTtl, email, password, id, link).0
  {
    RegisterMoves(s, r, id, email, password, link);
    RegisterMoves(ServerOf(DbOf(s), s.linkTtl), 0, id, email, password, link);
    hide UserByEmail, NormalizeEmail, VerificationLinks.RegisterAll;
  }

  lemma ResendMoves(s: A.State, r: RequestId, email: string, link: string)
    requires A.Idle(s, r)
    ensures var u := UserByEmail(s.tables.users, NormalizeEmail(email));
            DbOf(VerificationLinks.ResendAll(s, r, email, Some(Sha256(link))))
            == if u.None? || Verified(s.tables.users[u.value]) then DbOf(s)
               else
                 var newest := Link(u.value, None, s.sessions.now + s.linkTtl);
                 DbOf(s).(links := Invalidate(s.tables.links, u.value, s.sessions.now)[Sha256(link) := newest])
  {
    hide UserByEmail, NormalizeEmail, Invalidate;
  }

  lemma TablesDecideResend(s: A.State, r: RequestId, email: string, link: string)
    requires A.Idle(s, r)
    ensures DbOf(VerificationLinks.ResendAll(s, r, email, Some(Sha256(link))))
            == Resend(DbOf(s), s.linkTtl, email, link)
  {
    ResendMoves(s, r, email, link);
    ResendMoves(ServerOf(DbOf(s), s.linkTtl), 0, email, link);
    hide UserByEmail, NormalizeEmail, Invalidate, VerificationLinks.ResendAll;
  }

  lemma TablesDecideLinks(s: A.State, u: UserId, provider: string, claims: Claims, i: IdentityId, plain: string)
    ensures DbOf(A.LinkSignedInStep(s, u, provider, claims, i)) == LinkProvider(DbOf(s), u, provider, claims, i).0
    ensures plain != "" ==> DbOf(A.VerifyStep(s, Sha256(plain))) == VerifyEmail(DbOf(s), plain).0
  {
    hide IdentityBySubject, MarkVerified, Burn;
  }

  // And what they answer is what has happened: an account, an identity or a verified address is there
  // afterwards exactly when the answer says so, and a refusal changes nothing.
  lemma RegisterTellsTables(db: Db, ttl: Time, email: string, hash: string, id: UserId, link: string)
    requires id !in db.users
    ensures var (after, answer) := Register(db, ttl, email, hash, id, link);
            && (answer == Ok(id) <==> id in after.users)
            && (answer.Err? ==> after == db && answer.error == EmailTaken)
            && (answer.Ok? ==> (Consumable(after.links, Sha256(link), db.now) <==> ttl > 0))
  {
    hide UserByEmail, NormalizeEmail;
  }

  lemma LinkTellsTables(db: Db, u: UserId, provider: string, claims: Claims, i: IdentityId)
    requires i !in db.identities
    ensures var (after, answer) := LinkProvider(db, u, provider, claims, i);
            && (answer == Ok(i) <==> Owns(after.identities, u, i))
            && (answer.Err? ==> after == db)
  {
    hide IdentityBySubject;
  }

  lemma VerifyTellsTables(db: Db, plain: string)
    ensures var (after, answer) := VerifyEmail(db, plain);
            && (answer.Ok? <==> after.links != db.links)
            && (answer.Err? ==> after == db)
            && (answer.Ok? && answer.value in db.users ==> Verified(after.users[answer.value]))
  {
    if Consumable(db.links, Sha256(plain), db.now) {
      assert Burn(db.links, Sha256(plain), db.now)[Sha256(plain)].usedAt.Some?;
    }
  }
}
