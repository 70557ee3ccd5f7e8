// The sweeper is invisible to the whole account machine: dropping every deletion of expired links and
// expired refresh tokens from an interleaved run changes no answer of VerifyEmail, Refresh or Logout,
// and nothing but the rows deleted, as long as no refresh token is looked up after its grace period.

module AccountSweep {
  import opened Core
  import opened RefreshTokens
  import opened Text
  import opened AccountTables
  import opened Accounts
  import L = VerificationLinks
  import R = Rotation
  import S = RotationSweep

  datatype Answer = Verification(accepted: bool) | OfSession(answer: S.Answer)

  // What a statement reports back, to VerifyEmail, Refresh or Logout.
  ghost function AnswerOf(s: State, a: Action): seq<Answer> {
    match a
    case Verify(h) => [Verification(Consumable(s.tables.links, h, s.sessions.now))]
    case Session(ra) =>
      var answers := S.AnswerOf(s.sessions, ra);
      seq(|answers|, i requires 0 <= i < |answers| => OfSession(answers[i]))
    case _ => []
  }

  ghost function Answers(s: State, run: seq<Action>): seq<Answer>
    requires Runs(s, run)
    decreases |run|
  {
    if run == [] then [] else AnswerOf(s, run[0]) + Answers(Step(s, run[0]), run[1..])
  }

  predicate Sweeps(a: Action) {
    a.SweepLinks? || (a.Session? && a.action.Sweep?)
  }

  function WithoutSweeps(run: seq<Action>): seq<Action> {
    if run == [] then [] else (if Sweeps(run[0]) then [] else [run[0]]) + WithoutSweeps(run[1..])
  }

  predicate TimelyStep(s: State, a: Action) {
    a.Session? ==> S.TimelyStep(s.sessions, a.action)
  }

  ghost predicate Timely(s: State, run: seq<Action>)
    requires Runs(s, run)
    decreases |run|
  {
    run == [] || (TimelyStep(s, run[0]) && Timely(Step(s, run[0]), run[1..]))
  }

  // The server that has lost only the links that `swept` has lost.
  function WithLinks(full: State, links: Links): State {
    full.(tables := full.tables.(links := links))
  }

  // `swept` is `full` minus some expired links and some refresh tokens that are past their grace.
  ghost predicate Sim(swept: State, full: State) {
    var mid := WithLinks(full, swept.tables.links);
    L.Sim(mid, full) && S.Sim(swept.sessions, full.sessions) && swept == mid.(sessions := swept.sessions)
  }

  lemma SweepKeepsSim(swept: State, full: State, a: Action)
    requires Sim(swept, full) && Enabled(swept, a) && Sweeps(a)
    ensures Sim(Step(swept, a), full)
  {
    if a.Session? {
      S.SweepKeepsSim(swept.sessions, full.sessions);
    }
  }

  lemma StartKeepsSim(swept: State, mid: State, r: RequestId, f: FamilyId, p: Platform)
    requires S.Sim(swept.sessions, mid.sessions) && CanStart(swept, r, f)
    ensures CanStart(mid, r, f) && swept.sessions.now == mid.sessions.now && swept.sessions.log == mid.sessions.log
    ensures forall u :: S.Sim(Start(swept.sessions, r, u, f, p), Start(mid.sessions, r, u, f, p))
  {
  }

  lemma SimSharesClock(swept: R.State, mid: R.State)
    requires S.Sim(swept, mid)
    ensures swept.now == mid.now && swept.log == mid.log && swept.flight == mid.flight
  {
  }

  lemma RowsDoNotMatterToBegin(swept: State, mid: State, a: Action)
    requires swept == mid.(sessions := swept.sessions) && S.Sim(swept.sessions, mid.sessions)
    requires Enabled(swept, a) && L.Begins(a)
    ensures Enabled(mid, a) && S.Sim(Step(swept, a).sessions, Step(mid, a).sessions)
    ensures Step(swept, a) == Step(mid, a).(sessions := Step(swept, a).sessions)
  {
    hide UserByEmail, IdentityBySubject, NormalizeEmail, Start, S.Sim;
    match a
    case Login(r, email, _, f, p) => StartKeepsSim(swept, mid, r, f, p);
    case SignIn(r, _, _, p, f) => StartKeepsSim(swept, mid, r, f, p);
    case Create(r, _, _, f) => StartKeepsSim(swept, mid, r, f, mid.flight[r].platform);
    case LinkFound(r, _, f) => StartKeepsSim(swept, mid, r, f, mid.flight[r].platform);
  }

  lemma RowsDoNotMatter(swept: State, mid: State, a: Action)
    requires swept == mid.(sessions := swept.sessions) && S.Sim(swept.sessions, mid.sessions)
    requires Enabled(swept, a) && !a.Session?
    ensures Enabled(mid, a) && S.Sim(Step(swept, a).sessions, Step(mid, a).sessions)
    ensures Step(swept, a) == Step(mid, a).(sessions := Step(swept, a).sessions)
  {
    hide UserByEmail, IdentityBySubject, NormalizeEmail, CountAuthMethods, Start, S.Sim;
    if L.Begins(a) {
      RowsDoNotMatterToBegin(swept, mid, a);
      hide Step, Enabled;
    } else {
      SimSharesClock(swept.sessions, mid.sessions);
    }
  }

  // Rows of refresh tokens matter to the statements on refresh tokens only.
  lemma RowsMatterToSessions(swept: State, mid: State, a: Action)
    requires swept == mid.(sessions := swept.sessions) && S.Sim(swept.sessions, mid.sessions) && R.RowInv(mid.sessions)
    requires Enabled(swept, a) && !Sweeps(a) && TimelyStep(swept, a)
    ensures Enabled(mid, a) && S.Sim(Step(swept, a).sessions, Step(mid, a).sessions)
    ensures Step(swept, a) == Step(mid, a).(sessions := Step(swept, a).sessions)
    ensures AnswerOf(swept, a) == AnswerOf(mid, a)
  {
    if a.Session? {
      S.StepKeepsSim(swept.sessions, mid.sessions, a.action);
      hide R.Step, R.Enabled, R.RowInv, S.Sim, S.AnswerOf;
    } else {
      RowsDoNotMatter(swept, mid, a);
      hide Step, Enabled, R.RowInv;
    }
  }

  lemma LinkSimIsWithLinks(mid: State, full: State)
    requires L.Sim(mid, full)
    ensures mid == WithLinks(full, mid.tables.links) && mid.sessions == full.sessions
  {
  }

  lemma StepKeepsSim(swept: State, full: State, a: Action)
    requires Sim(swept, full) && R.RowInv(full.sessions) && Enabled(swept, a) && !Sweeps(a) && TimelyStep(swept, a)
    ensures Enabled(full, a) && Sim(Step(swept, a), Step(full, a))
    ensures AnswerOf(swept, a) == AnswerOf(full, a)
  {
    var mid := WithLinks(full, swept.tables.links);
    hide R.RowInv, S.Sim, L.Sim, Step, Enabled, S.AnswerOf;
    RowsMatterToSessions(swept, mid, a);
    L.StepKeepsSim(mid, full, a);
    LinkSimIsWithLinks(Step(mid, a), Step(full, a));
  }

  lemma InvHasRows(s: State)
    requires Inv(s)
    ensures R.RowInv(s.sessions)
  {
  }

  lemma SweepHasNoAnswer(s: State, a: Action)
    requires Sweeps(a)
    ensures AnswerOf(s, a) == []
  {
  }

  lemma {:induction false} SweepSimulation(swept: State, full: State, run: seq<Action>)
    requires Sim(swept, full) && Inv(full) && Runs(swept, run) && Timely(swept, run)
    ensures Runs(full, WithoutSweeps(run))
    ensures Answers(swept, run) == Answers(full, WithoutSweeps(run))
    ensures Sim(Exec(swept, run), Exec(full, WithoutSweeps(run)))
    decreases |run|
  {
    if run != [] {
      var a, rest := run[0], WithoutSweeps(run[1..]);
      InvHasRows(full);
      hide Inv, Step, Enabled, Sim, TimelyStep, AnswerOf;
      if Sweeps(a) {
        SweepKeepsSim(swept, full, a);
        SweepHasNoAnswer(swept, a);
        SweepSimulation(Step(swept, a), full, run[1..]);
        assert WithoutSweeps(run) == rest;
      } else {
        StepKeepsSim(swept, full, a);
        StepKeepsInv(full, a);
        SweepSimulation(Step(swept, a), Step(full, a), run[1..]);
        assert WithoutSweeps(run) == [a] + rest && (([a] + rest)[1..] == rest);
      }
    }
  }

  // From any reachable state.
  lemma SweepIsInvisible(s: State, run: seq<Action>)
    requires Inv(s) && Runs(s, run) && Timely(s, run)
    ensures Runs(s, WithoutSweeps(run)) && Answers(s, run) == Answers(s, WithoutSweeps(run))
    ensures var swept, full := Exec(s, run), Exec(s, WithoutSweeps(run));
            && swept == WithLinks(full, swept.tables.links).(sessions := full.sessions.(rows := swept.sessions.rows))
            && (forall h :: Consumable(swept.tables.links, h, swept.sessions.now)
                       <==> Consumable(full.tables.links, h, full.sessions.now))
            && (forall h :: Spendable(swept.sessions.rows, h, swept.sessions.now)
                       <==> Spendable(full.sessions.rows, h, full.sessions.now))
  {
    assert WithLinks(s, s.tables.links) == s;
    hide Inv, Step, Enabled;
    SweepSimulation(s, s, run);
  }
}
