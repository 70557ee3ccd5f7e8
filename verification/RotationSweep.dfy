// The sweeper is invisible: a run of the rotation protocol with DeleteExpiredRefreshTokens anywhere
// in it answers exactly as the same run without it, as long as no row is looked up later than its
// grace period (internal/auth/sweep.go).

module RotationSweep {
  import opened Core
  import opened RefreshTokens
  import opened Rotation

  // What the statements of a run report back to the requests that issue them.
  datatype Answer =
    | Rotated(user: UserId, family: FamilyId)
    | NotSpent
    | Reused(family: FamilyId)
    | NotReused
    | Leaving(family: FamilyId)
    | Unknown

  ghost function AnswerOf(s: State, a: Action): seq<Answer> {
    match a
    case Present(_, h, _) =>
      [if Spendable(s.rows, h, s.now) then Rotated(s.rows[h].user, s.rows[h].family) else NotSpent]
    case Lookup(r) =>
      if r in s.flight && s.flight[r].Failed? then
        var h := s.flight[r].hash;
        [if h in s.rows && s.rows[h].usedAt.Some? then Reused(s.rows[h].family) else NotReused]
      else []
    case LogoutLookup(_, h) => [if h in s.rows then Leaving(s.rows[h].family) else Unknown]
    case _ => []
  }

  ghost function Answers(s: State, run: seq<Action>): seq<Answer>
    requires Runs(s, run)
    decreases |run|
  {
    if run == [] then [] else AnswerOf(s, run[0]) + Answers(Step(s, run[0]), run[1..])
  }

  function WithoutSweeps(run: seq<Action>): seq<Action> {
    if run == [] then [] else (if run[0].Sweep? then [] else [run[0]]) + WithoutSweeps(run[1..])
  }

  // A row is looked up, after a failed spend or by Logout, less than 30 days after it expired.
  predicate InGrace(s: State, h: Hash) {
    h in s.log.minted ==> s.now < s.log.minted[h].expiresAt + 2592000
  }

  predicate TimelyStep(s: State, a: Action) {
    match a
    case Lookup(r) => r in s.flight && s.flight[r].Failed? ==> InGrace(s, s.flight[r].hash)
    case LogoutLookup(_, h) => InGrace(s, h)
    case _ => true
  }

  ghost predicate Timely(s: State, run: seq<Action>)
    requires Runs(s, run)
    decreases |run|
  {
    run == [] || (TimelyStep(s, run[0]) && Timely(Step(s, run[0]), run[1..]))
  }

  // `swept` is `full` minus some rows that are past their grace.
  ghost predicate Sim(swept: State, full: State) {
    && swept == full.(rows := swept.rows)
    && (forall h <- swept.rows :: h in full.rows && swept.rows[h] == full.rows[h])
    && (forall h <- full.rows :: h in swept.rows || full.rows[h].expiresAt + GRACE <= full.now)
  }

  lemma SweepKeepsSim(swept: State, full: State)
    requires Sim(swept, full)
    ensures Sim(Step(swept, Sweep), full)
  {
  }

  lemma SameEnabled(swept: State, full: State, a: Action)
    requires Sim(swept, full) && Enabled(swept, a)
    ensures Enabled(full, a)
  {
  }

  lemma PresentKeepsSim(swept: State, full: State, r: RequestId, h: Hash, p: Platform)
    requires Sim(swept, full)
    ensures Sim(PresentStep(swept, r, h, p), PresentStep(full, r, h, p))
    ensures Spendable(swept.rows, h, swept.now) <==> Spendable(full.rows, h, full.now)
  {
  }

  lemma LookupKeepsSim(swept: State, full: State, r: RequestId)
    requires Sim(swept, full) && RowInv(full) && Enabled(full, Lookup(r)) && InGrace(full, full.flight[r].hash)
    ensures Sim(LookupStep(swept, r), LookupStep(full, r))
    ensures full.flight[r].hash in swept.rows <==> full.flight[r].hash in full.rows
  {
    assert full.flight[r].hash in full.rows ==> RowOk(full, full.flight[r].hash);
  }

  lemma LogoutKeepsSim(swept: State, full: State, r: RequestId, h: Hash)
    requires Sim(swept, full) && RowInv(full) && InGrace(full, h)
    ensures Sim(LogoutStep(swept, r, h), LogoutStep(full, r, h))
    ensures h in swept.rows <==> h in full.rows
  {
    assert h in full.rows ==> RowOk(full, h);
  }

  lemma InsertKeepsSim(swept: State, full: State, r: RequestId, h: Hash, at: Time)
    requires Sim(swept, full) && Enabled(full, Insert(r, h, at))
    ensures Sim(InsertStep(swept, r, h, at), InsertStep(full, r, h, at))
  {
  }

  lemma RevokeKeepsSim(swept: State, full: State, r: RequestId)
    requires Sim(swept, full) && Enabled(swept, Revoke(r)) && Enabled(full, Revoke(r))
    ensures Sim(Step(swept, Revoke(r)), Step(full, Revoke(r)))
  {
  }

  lemma StepKeepsSim(swept: State, full: State, a: Action)
    requires Sim(swept, full) && RowInv(full) && Enabled(swept, a) && !a.Sweep? && TimelyStep(swept, a)
    ensures Enabled(full, a) && Sim(Step(swept, a), Step(full, a))
    ensures AnswerOf(swept, a) == AnswerOf(full, a)
  {
    SameEnabled(swept, full, a);
    match a
    case Present(r, h, p) => PresentKeepsSim(swept, full, r, h, p);
    case Lookup(r) => LookupKeepsSim(swept, full, r);
    case LogoutLookup(r, h) => LogoutKeepsSim(swept, full, r, h);
    case Insert(r, h, at) => InsertKeepsSim(swept, full, r, h, at);
    case Revoke(r) => RevokeKeepsSim(swept, full, r);
    case Begin(_, _, _, _) =>
    case Tick(_) =>
    case Abort(_) =>
  }

  lemma {:induction false} SweepSimulation(swept: State, full: State, run: seq<Action>)
    requires Sim(swept, full) && Inv(full) && Runs(swept, run) && Timely(swept, run)
    ensures Runs(full, WithoutSweeps(run))
    ensures Answers(swept, run) == Answers(full, WithoutSweeps(run))
    ensures Sim(Exec(swept, run), Exec(full, WithoutSweeps(run)))
    decreases |run|
  {
    if run != [] {
      var a, rest := run[0], WithoutSweeps(run[1..]);
      if a.Sweep? {
        SweepKeepsSim(swept, full);
        SweepSimulation(Step(swept, a), full, run[1..]);
        assert WithoutSweeps(run) == rest;
      } else {
        StepKeepsSim(swept, full, a);
        StepKeepsInv(full, a);
        SweepSimulation(Step(swept, a), Step(full, a), run[1..]);
        assert WithoutSweeps(run) == [a] + rest && (([a] + rest)[1..] == rest);
      }
    }
  }

  // From any reachable state, a run with sweeps and the same run without them give every request the
  // same answers, end with the same requests, families and history, and leave the same tokens spendable.
  lemma SweepIsInvisible(s: State, run: seq<Action>)
    requires Inv(s) && Runs(s, run) && Timely(s, run)
    ensures Runs(s, WithoutSweeps(run))
    ensures Answers(s, run) == Answers(s, WithoutSweeps(run))
    ensures Exec(s, run) == Exec(s, WithoutSweeps(run)).(rows := Exec(s, run).rows)
    ensures forall h :: Spendable(Exec(s, run).rows, h, Exec(s, run).now)
                   <==> Spendable(Exec(s, WithoutSweeps(run)).rows, h, Exec(s, WithoutSweeps(run)).now)
  {
    hide Inv;
    SweepSimulation(s, s, run);
  }

  // The grace is what it takes: for a stored token, a sweep just before the look-up changes the answer
  // exactly when the grace is over (for a Refresh: and the token had been spent).
  lemma SweepShowsExactlyAfterGrace(s: State, r: RequestId, h: Hash)
    requires Inv(s) && h in s.rows
    ensures AnswerOf(Step(s, Sweep), LogoutLookup(r, h)) == AnswerOf(s, LogoutLookup(r, h)) <==> InGrace(s, h)
    ensures r in s.flight && s.flight[r] == Failed(h) ==>
              (AnswerOf(Step(s, Sweep), Lookup(r)) == AnswerOf(s, Lookup(r)) <==> InGrace(s, h) || !Spent(s, h))
  {
    assert RowOk(s, h);
    hide Inv;
  }
}
