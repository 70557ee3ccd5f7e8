// What holds when requests run one at a time: a request starts only when none is in flight, and may
// still stop anywhere, while the clock moves and the sweeper runs.

module OneAtATime {
  import opened Core
  import opened RefreshTokens
  import opened Text
  import opened AccountTables
  import opened Accounts
  import AccountSafety
  import Password
  import Requests
  import Q = RequestRuns
  import R = Rotation
  import S = RotationSafety

  // The first statement of a request that has more than one.
  predicate Starts(a: Action) {
    match a
    case Session(ra) => ra.Present? || ra.LogoutLookup?
    case Register(_, _, _, _) => true
    case ResendRead(_, _) => true
    case Login(_, _, _, _, _) => true
    case SignIn(_, _, _, _, _) => true
    case UnlinkCount(_, _, _) => true
    case _ => false
  }

  predicate Quiescent(s: State) {
    s.flight == map[] && s.sessions.flight == map[]
  }

  ghost predicate Serial(s: State, run: seq<Action>)
    requires Runs(s, run)
    decreases |run|
  {
    run == [] || ((Starts(run[0]) ==> Quiescent(s)) && Serial(Step(s, run[0]), run[1..]))
  }

  // ----- Whole requests are serial -----

  // The statements of at most one request.
  ghost predicate OneRequest(run: seq<Action>) {
    forall i | 0 < i < |run| :: !Starts(run[i])
  }

  lemma {:induction false} RestIsSerial(s: State, run: seq<Action>)
    requires Runs(s, run) && forall a <- run :: !Starts(a)
    ensures Serial(s, run)
    decreases |run|
  {
    if run != [] {
      assert run[0] in run;
      hide Step, Enabled;
      RestIsSerial(Step(s, run[0]), run[1..]);
    }
  }

  lemma OneRequestIsSerial(s: State, run: seq<Action>)
    requires Quiescent(s) && Runs(s, run) && OneRequest(run)
    ensures Serial(s, run)
  {
    if run != [] {
      hide Step, Enabled;
      assert forall i | 0 <= i < |run[1..]| :: run[1..][i] == run[i + 1];
      RestIsSerial(Step(s, run[0]), run[1..]);
    }
  }

  // A request served from its first statement to its last.
  ghost predicate Serves(s: State, run: seq<Action>) {
    OneRequest(run) && Runs(s, run) && Quiescent(Exec(s, run))
  }

  // Requests served one after another, each from its first statement to its last.
  ghost predicate Served(s: State, requests: seq<seq<Action>>)
    decreases |requests|
  {
    requests == []
    || (Serves(s, requests[0]) && Served(Exec(s, requests[0]), requests[1..]))
  }

  // Every use case run to its end from a server with nothing in flight is such a request.

  lemma {:induction false} SessionActions(run: seq<R.Action>)
    ensures |Q.OnSessions(run)| == |run|
    ensures forall i | 0 <= i < |run| :: Q.OnSessions(run)[i] == Session(run[i])
  {
    if run != [] {
      SessionActions(run[1..]);
    }
  }

  lemma RefreshIsARequest(s: State, r: RequestId, plain: string, p: Platform, token: string)
    requires Quiescent(s) && R.NewRequest(s.sessions, r) && R.Fresh(s.sessions, Sha256(token)) && token != plain
    ensures Serves(s, Q.OnSessions(Q.RefreshRun(s.sessions, r, plain, p, token)))
  {
    SessionActions(Q.RefreshRun(s.sessions, r, plain, p, token));
    Q.RefreshIsARun(s, r, plain, p, token);
    hide Runs, Exec, Requests.Refresh, Q.Backs, Q.OnSessions, R.Fresh;
  }

  lemma LogoutIsARequest(s: State, r: RequestId, plain: string)
    requires Quiescent(s) && R.NewRequest(s.sessions, r)
    ensures Serves(s, Q.OnSessions(Q.LogoutRun(s.sessions, r, plain)))
  {
    SessionActions(Q.LogoutRun(s.sessions, r, plain));
    Q.LogoutIsARun(s, r, plain);
    hide Runs, Exec, Requests.Logout, Q.OnSessions;
  }

  lemma LoginIsARequest(s: State, r: RequestId, argon: Password.Argon, email: string, password: string, p: Platform,
                        drawn: Requests.Drawn)
    requires Quiescent(s) && Idle(s, r) && Q.FreshIn(s, drawn)
    ensures Serves(s, Q.LoginRun(s, r, argon, email, password, p, drawn))
  {
    hide Runs, Exec, Requests.Login, Q.Backs, R.Fresh, Q.LoginAccepted;
    Q.LoginIsARun(s, r, argon, email, password, p, drawn);
  }

  lemma SignInIsARequest(s: State, r: RequestId, provider: string, c: Claims, p: Platform, drawn: Requests.Drawn)
    requires Quiescent(s) && Idle(s, r) && Q.FreshIn(s, drawn)
    ensures Serves(s, Q.SignInRun(s, r, provider, c, p, drawn))
  {
    hide Runs, Exec, Requests.SignIn, Q.Backs, R.Fresh, UserByEmail, IdentityBySubject, NormalizeEmail;
    Q.SignInIsARun(s, r, provider, c, p, drawn);
  }

  lemma UnlinkIsARequest(s: State, r: RequestId, u: UserId, i: IdentityId)
    requires Quiescent(s) && Idle(s, r) && u in s.sessions.log.issued
    ensures Serves(s, Q.UnlinkRun(s, r, u, i))
  {
    hide Runs, Exec, Requests.Unlink, CountAuthMethods;
    Q.UnlinkIsARun(s, r, u, i);
  }

  function Flatten(requests: seq<seq<Action>>): seq<Action> {
    if requests == [] then [] else requests[0] + Flatten(requests[1..])
  }

  lemma {:induction false} SerialJoin(s: State, xs: seq<Action>, ys: seq<Action>)
    requires Runs(s, xs) && Runs(Exec(s, xs), ys) && Serial(s, xs) && Serial(Exec(s, xs), ys)
    ensures Runs(s, xs + ys) && Exec(s, xs + ys) == Exec(Exec(s, xs), ys) && Serial(s, xs + ys)
    decreases |xs|
  {
    hide Step, Enabled;
    if xs == [] {
      assert xs + ys == ys;
    } else {
      assert (xs + ys)[1..] == xs[1..] + ys;
      SerialJoin(Step(s, xs[0]), xs[1..], ys);
    }
  }

  lemma {:induction false} ServedIsSerial(s: State, requests: seq<seq<Action>>)
    requires Quiescent(s) && Served(s, requests)
    ensures Runs(s, Flatten(requests)) && Serial(s, Flatten(requests)) && Quiescent(Exec(s, Flatten(requests)))
    decreases |requests|
  {
    if requests != [] {
      hide Step, Enabled;
      OneRequestIsSerial(s, requests[0]);
      ServedIsSerial(Exec(s, requests[0]), requests[1..]);
      SerialJoin(s, requests[0], Flatten(requests[1..]));
    }
  }

  // ----- One request in flight -----

  predicate AtMost(s: State, r: RequestId) {
    s.flight.Keys + s.sessions.flight.Keys <= {r}
  }

  // At most one request is in flight, at one place.
  ghost predicate OneInFlight(s: State) {
    && (s.flight == map[] || s.sessions.flight == map[])
    && exists r :: AtMost(s, r)
  }

  // Requests that are in flight after a step were so before, except the one that the step starts.
  lemma SessionFlights(s: R.State, a: R.Action)
    requires R.Enabled(s, a)
    ensures R.Step(s, a).flight.Keys
            <= s.flight.Keys + if a.Begin? || a.Present? || a.LogoutLookup? then {a.req} else {}
  {
  }

  lemma AccountFlights(s: State, a: Action)
    requires Enabled(s, a) && !a.Session?
    ensures var s' := Step(s, a);
            || (s'.sessions == s.sessions && s'.flight.Keys <= s.flight.Keys + if Starts(a) then {a.req} else {})
            || ((a.Login? || a.SignIn? || a.Create? || a.LinkFound?) && s'.flight.Keys <= s.flight.Keys - {a.req}
                && s'.sessions.flight.Keys <= s.sessions.flight.Keys + {a.req})
  {
    hide UserByEmail, IdentityBySubject, CountAuthMethods;
    if a.Login? || a.SignIn? {
      assert s.flight.Keys - {a.req} == s.flight.Keys;
    }
  }

  lemma InFlightAtStep(s: State, a: Action)
    requires Enabled(s, a) && (a.Create? || a.LinkFound?)
    ensures a.req in s.flight
  {
  }

  lemma StepKeepsOne(s: State, a: Action)
    requires OneInFlight(s) && Enabled(s, a) && (Starts(a) ==> Quiescent(s))
    ensures OneInFlight(Step(s, a))
  {
    var r :| AtMost(s, r);
    var s' := Step(s, a);
    if a.Session? {
      SessionFlights(s.sessions, a.action);
      assert s'.flight == s.flight;
      hide R.Step, R.Enabled;
      assert AtMost(s', if Starts(a) then a.action.req else r);
    } else {
      AccountFlights(s, a);
      if a.Create? || a.LinkFound? {
        InFlightAtStep(s, a);
      }
      hide Step, Enabled;
      assert AtMost(s', if Starts(a) || a.Create? || a.LinkFound? then a.req else r);
    }
  }

  lemma {:induction false} SerialKeepsOne(s: State, run: seq<Action>)
    requires OneInFlight(s) && Runs(s, run) && Serial(s, run)
    ensures OneInFlight(Exec(s, run))
    decreases |run|
  {
    if run != [] {
      StepKeepsOne(s, run[0]);
      hide Step, Enabled, OneInFlight, Quiescent;
      SerialKeepsOne(Step(s, run[0]), run[1..]);
    }
  }

  lemma InitIsQuiescent(config: R.Config, linkTtl: Time, now: Time)
    ensures Quiescent(Init(config, linkTtl, now)) && OneInFlight(Init(config, linkTtl, now))
  {
    assert AtMost(Init(config, linkTtl, now), 0);
  }

  // ----- Nobody is locked out -----

  lemma {:induction false} SerialIsDisciplined(s: State, run: seq<Action>)
    requires Runs(s, run) && Serial(s, run)
    ensures AccountSafety.Disciplined(s, run)
    decreases |run|
  {
    if run != [] {
      hide Step, Enabled;
      SerialIsDisciplined(Step(s, run[0]), run[1..]);
    }
  }

  // One at a time, every user always has a way to sign in.
  lemma NobodyIsLockedOut(config: R.Config, linkTtl: Time, now: Time, run: seq<Action>, u: UserId)
    requires Runs(Init(config, linkTtl, now), run) && Serial(Init(config, linkTtl, now), run)
    requires u in Exec(Init(config, linkTtl, now), run).tables.users
    ensures AccountSafety.Methods(Exec(Init(config, linkTtl, now), run).tables, u) >= 1
  {
    SerialIsDisciplined(Init(config, linkTtl, now), run);
    AccountSafety.NeverLockedOutFromTheStart(config, linkTtl, now, run, u);
  }

  // ----- Every revoke is final -----

  lemma StartIsBegin(s: State, r: RequestId, f: FamilyId, p: Platform)
    requires CanStart(s, r, f)
    ensures forall u :: R.Enabled(s.sessions, R.Begin(r, u, f, p))
                        && Start(s.sessions, r, u, f, p) == R.Step(s.sessions, R.Begin(r, u, f, p))
  {
  }

  // A step of the account machine is a step of the rotation machine or none.
  lemma SessionsMove(s: State, a: Action)
    requires Enabled(s, a)
    ensures || Step(s, a).sessions == s.sessions
            || (exists ra :: R.Enabled(s.sessions, ra) && Step(s, a).sessions == R.Step(s.sessions, ra))
  {
    hide UserByEmail, IdentityBySubject, NormalizeEmail, CountAuthMethods;
    match a
    case Session(ra) =>
    case Login(r, email, _, f, p) => StartIsBegin(s, r, f, p);
    case SignIn(r, _, _, p, f) => StartIsBegin(s, r, f, p);
    case Create(r, id, _, f) => StartIsBegin(s, r, f, s.flight[r].platform);
    case LinkFound(r, _, f) => StartIsBegin(s, r, f, s.flight[r].platform);
    case _ =>
  }

  ghost predicate Dead(s: State, f: FamilyId) {
    f in s.sessions.log.chain && S.Potential(s.sessions, f) == 0
  }

  lemma SpendsAreLogged(s: R.State, f: FamilyId)
    requires R.Inv(s) && f in s.log.chain
    ensures f in s.log.spends
  {
    assert R.FamilyOk(s, f);
  }

  lemma DeadStaysDead(s: State, a: Action, f: FamilyId)
    requires R.Inv(s.sessions) && Enabled(s, a) && Dead(s, f)
    ensures R.Inv(Step(s, a).sessions) && Dead(Step(s, a), f)
    ensures R.Logged(Step(s, a).sessions.log.spends, f) == R.Logged(s.sessions.log.spends, f)
  {
    SessionsMove(s, a);
    hide Step, Enabled, R.Inv, R.Step, R.Enabled, S.Potential;
    if Step(s, a).sessions != s.sessions {
      var ra :| R.Enabled(s.sessions, ra) && Step(s, a).sessions == R.Step(s.sessions, ra);
      R.StepKeepsInv(s.sessions, ra);
      SpendsAreLogged(s.sessions, f);
      S.DeadFamilySpendsNothing(s.sessions, ra, f);
      SpendsAreLogged(R.Step(s.sessions, ra), f);
    }
  }

  lemma {:induction false} DeadForever(s: State, run: seq<Action>, f: FamilyId)
    requires R.Inv(s.sessions) && Runs(s, run) && Dead(s, f)
    ensures Dead(Exec(s, run), f)
    ensures R.Logged(Exec(s, run).sessions.log.spends, f) == R.Logged(s.sessions.log.spends, f)
    decreases |run|
  {
    if run != [] {
      DeadStaysDead(s, run[0], f);
      hide Step, Enabled, R.Inv, Dead;
      DeadForever(Step(s, run[0]), run[1..], f);
    }
  }

  // With one request in flight no INSERT is pending when a family is revoked.
  lemma RevokeKills(s: State, r: RequestId)
    requires R.Inv(s.sessions) && OneInFlight(s) && Enabled(s, Session(R.Revoke(r)))
    ensures s.sessions.flight[r].family in s.sessions.log.chain ==>
              Dead(Step(s, Session(R.Revoke(r))), s.sessions.flight[r].family)
  {
    var f := s.sessions.flight[r].family;
    var q :| AtMost(s, q);
    assert r in s.sessions.flight.Keys;
    assert S.Minters(s.sessions, f) == {};
    hide R.Inv;
    S.RevokeKillsExactlyWithoutMinter(s.sessions, r);
  }

  // A family is only ever revoked because of one of its tokens.
  lemma RevokedFamilyWasBorn(s: R.State, r: RequestId)
    requires R.Inv(s) && R.Enabled(s, R.Revoke(r))
    ensures s.flight[r].family in s.log.chain
  {
    var f := s.flight[r].family;
    if p, q :| R.Replayed(s, f, p, q) {
      assert R.TokenOk(s, s.presented[p].hash);
    } else {
      var q :| R.LoggedOut(s, f, q);
      assert R.TokenOk(s, s.presented[q].hash);
    }
  }

  lemma DeadHasNoLiveRow(s: State, f: FamilyId)
    requires Dead(s, f)
    ensures forall h :: h in s.sessions.rows && s.sessions.rows[h].family == f ==> !Live(s.sessions.rows[h])
  {
    assert S.LiveRows(s.sessions, f) == {};
    forall h | h in s.sessions.rows && s.sessions.rows[h].family == f ensures !Live(s.sessions.rows[h]) {
      assert h !in S.LiveRows(s.sessions, f);
    }
  }

  // One at a time, the end of a session is final, whether a replay or a logout ended it: from the revoke
  // on, whatever comes, no token of the family is spent, is waiting to be spent, or is on its way.
  lemma EveryRevokeIsFinal(config: R.Config, linkTtl: Time, now: Time, before: seq<Action>, r: RequestId,
                           after: seq<Action>)
    requires var s0 := Init(config, linkTtl, now);
             && Runs(s0, before) && Serial(s0, before)
             && Enabled(Exec(s0, before), Session(R.Revoke(r)))
             && Runs(Step(Exec(s0, before), Session(R.Revoke(r))), after)
    ensures var s := Exec(Init(config, linkTtl, now), before);
            var end := Exec(Step(s, Session(R.Revoke(r))), after);
            var f := s.sessions.flight[r].family;
            && Dead(end, f)
            && R.Logged(end.sessions.log.spends, f) == R.Logged(s.sessions.log.spends, f)
            && (forall h :: h in end.sessions.rows && end.sessions.rows[h].family == f ==> !Live(end.sessions.rows[h]))
  {
    var s0 := Init(config, linkTtl, now);
    var s := Exec(s0, before);
    var f := s.sessions.flight[r].family;
    InitInv(config, linkTtl, now);
    ReachableInv(s0, before);
    InitIsQuiescent(config, linkTtl, now);
    SerialKeepsOne(s0, before);
    RevokedFamilyWasBorn(s.sessions, r);
    RevokeKills(s, r);
    R.StepKeepsInv(s.sessions, R.Revoke(r));
    var s1 := Step(s, Session(R.Revoke(r)));
    assert s1.sessions == R.Step(s.sessions, R.Revoke(r)) && s1.sessions.log == s.sessions.log;
    hide Init, Step, Enabled, Runs, Exec, Serial, Inv, R.Inv, R.Step, OneInFlight;
    DeadForever(s1, after, f);
    DeadHasNoLiveRow(Exec(s1, after), f);
  }

  // The server after requests served one after another.
  ghost function ServedState(config: R.Config, linkTtl: Time, now: Time, requests: seq<seq<Action>>): State
    requires Served(Init(config, linkTtl, now), requests)
  {
    InitIsQuiescent(config, linkTtl, now);
    ServedIsSerial(Init(config, linkTtl, now), requests);
    Exec(Init(config, linkTtl, now), Flatten(requests))
  }

  lemma ServedIsGood(config: R.Config, linkTtl: Time, now: Time, requests: seq<seq<Action>>)
    requires Served(Init(config, linkTtl, now), requests)
    ensures R.Inv(ServedState(config, linkTtl, now, requests).sessions)
    ensures Quiescent(ServedState(config, linkTtl, now, requests))
  {
    InitInv(config, linkTtl, now);
    InitIsQuiescent(config, linkTtl, now);
    ServedIsSerial(Init(config, linkTtl, now), requests);
    ReachableInv(Init(config, linkTtl, now), Flatten(requests));
    hide Init, R.Inv;
  }

  lemma ReplayKills(s: State, r: RequestId, h: Hash, p: Platform)
    requires R.Inv(s.sessions) && Quiescent(s) && R.NewRequest(s.sessions, r) && R.Spent(s.sessions, h)
    requires s.sessions.now < s.sessions.log.minted[h].expiresAt + 2592000
    ensures var replay := Q.OnSessions(S.ReplayRun(r, h, p));
            && Runs(s, replay) && R.Inv(Exec(s, replay).sessions)
            && Dead(Exec(s, replay), s.sessions.log.minted[h].family)
  {
    var f, replay := s.sessions.log.minted[h].family, S.ReplayRun(r, h, p);
    assert S.Minters(s.sessions, f) == {};
    S.ReuseIsDetected(s.sessions, r, h, p);
    hide Runs, Exec, R.Runs, R.Exec, S.Potential;
    Q.SessionsRun(s, replay);
    S.FamilyOfTokenIsKept(s.sessions, h);
    S.FamiliesRemain(s.sessions, replay, f);
    R.ReachableInv(s.sessions, replay);
  }

  // After any requests, served one after another: a Refresh that presents a spent token within its grace
  // ends the session for good.
  lemma ReplayEndsTheSession(config: R.Config, linkTtl: Time, now: Time, requests: seq<seq<Action>>, r: RequestId,
                             h: Hash, p: Platform, after: seq<Action>)
    requires Served(Init(config, linkTtl, now), requests)
    requires var s := ServedState(config, linkTtl, now, requests);
             && R.NewRequest(s.sessions, r) && R.Spent(s.sessions, h)
             && s.sessions.now < s.sessions.log.minted[h].expiresAt + 2592000
    ensures var s, replay := ServedState(config, linkTtl, now, requests), Q.OnSessions(S.ReplayRun(r, h, p));
            && Runs(s, replay)
            && (Runs(Exec(s, replay), after) ==> Dead(Exec(Exec(s, replay), after), s.sessions.log.minted[h].family))
  {
    ServedIsGood(config, linkTtl, now, requests);
    var s := ServedState(config, linkTtl, now, requests);
    hide ServedState;
    ReplayKills(s, r, h, p);
    if Runs(Exec(s, Q.OnSessions(S.ReplayRun(r, h, p))), after) {
      hide Runs, Exec, R.Inv, Dead;
      DeadForever(Exec(s, Q.OnSessions(S.ReplayRun(r, h, p))), after, s.sessions.log.minted[h].family);
    }
  }

  lemma LogoutKills(s: State, r: RequestId, plain: string)
    requires R.Inv(s.sessions) && Quiescent(s) && R.NewRequest(s.sessions, r)
    requires plain != "" && Sha256(plain) in s.sessions.rows
    ensures var logout := Q.OnSessions(Q.LogoutRun(s.sessions, r, plain));
            && Runs(s, logout) && R.Inv(Exec(s, logout).sessions)
            && Dead(Exec(s, logout), s.sessions.rows[Sha256(plain)].family)
  {
    var h, run := Sha256(plain), Q.LogoutRun(s.sessions, r, plain);
    var f := s.sessions.rows[h].family;
    assert R.RowOk(s.sessions, h);
    S.FamilyOfTokenIsKept(s.sessions, h);
    assert S.Minters(s.sessions, f) == {};
    S.LogoutKills(s.sessions, r, h);
    S.LogoutReads(s.sessions, r, h);
    hide Runs, Exec, R.Runs, R.Exec, R.Inv, S.Potential, R.Step, R.Enabled;
    R.TwoSteps(s.sessions, R.LogoutLookup(r, h), R.Revoke(r));
    Q.SessionsRun(s, run);
    S.FamiliesRemain(s.sessions, run, f);
  }

  // And so does a Logout of any stored token of the session.
  lemma LogoutEndsTheSession(config: R.Config, linkTtl: Time, now: Time, requests: seq<seq<Action>>, r: RequestId,
                             plain: string, after: seq<Action>)
    requires Served(Init(config, linkTtl, now), requests)
    requires var s := ServedState(config, linkTtl, now, requests);
             R.NewRequest(s.sessions, r) && plain != "" && Sha256(plain) in s.sessions.rows
    ensures var s := ServedState(config, linkTtl, now, requests);
            var logout := Q.OnSessions(Q.LogoutRun(s.sessions, r, plain));
            && Runs(s, logout)
            && (Runs(Exec(s, logout), after) ==>
                  Dead(Exec(Exec(s, logout), after), s.sessions.rows[Sha256(plain)].family))
  {
    ServedIsGood(config, linkTtl, now, requests);
    var s := ServedState(config, linkTtl, now, requests);
    hide ServedState;
    LogoutKills(s, r, plain);
    var logout := Q.OnSessions(Q.LogoutRun(s.sessions, r, plain));
    if Runs(Exec(s, logout), after) {
      hide Runs, Exec, R.Inv, Dead;
      DeadForever(Exec(s, logout), after, s.sessions.rows[Sha256(plain)].family);
    }
  }
}
