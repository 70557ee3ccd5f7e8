// What the rotation protocol guarantees, over every run of the interleaved machine.

module RotationSafety {
  import opened Core
  import opened RefreshTokens
  import opened Rotation

  ghost predicate Reachable(s: State) {
    exists config, now, run :: Runs(Init(config, now), run) && s == Exec(Init(config, now), run)
  }

  lemma ReachableIsGood(s: State)
    requires Reachable(s)
    ensures Inv(s)
  {
    var config, now, run :| Runs(Init(config, now), run) && s == Exec(Init(config, now), run);
    InitInv(config, now);
    ReachableInv(Init(config, now), run);
  }

  // ----- Conservation -----

  // Tokens of the family that a spend could still take, expired or not.
  ghost function LiveRows(s: State, f: FamilyId): set<Hash> {
    set h | h in s.rows && s.rows[h].family == f && Live(s.rows[h])
  }

  // Sessions started or tokens spent whose INSERT is still to come.
  ghost function Minters(s: State, f: FamilyId): set<RequestId> {
    set r | r in s.flight && s.flight[r].Minting? && s.flight[r].family == f
  }

  ghost function Potential(s: State, f: FamilyId): nat {
    |LiveRows(s, f)| + |Minters(s, f)|
  }

  lemma AtMostOneElement<T>(s: set<T>)
    requires forall x, y | x in s && y in s :: x == y
    ensures |s| <= 1
  {
    if x :| x in s {
      assert s == {x};
    }
  }

  lemma PotentialAtMostOne(s: State, f: FamilyId)
    requires Inv(s)
    ensures Potential(s, f) <= 1
  {
    hide SpendInv, FailureInv, RevokeInv;
    var live, minters := LiveRows(s, f), Minters(s, f);
    forall g, h | g in live && h in live ensures g == h {
      UnusedIsLast(s, g);
      UnusedIsLast(s, h);
    }
    forall h | h in live ensures minters == {} {
      UnusedIsLast(s, h);
      assert forall r <- minters :: MintingOk(s, r);
    }
    AtMostOneElement(live);
    AtMostOneElement(minters);
    assert live == {} || minters == {};
  }

  // In every reachable interleaved state a family has at most one way forward.
  lemma OneSlotPerFamily(s: State, f: FamilyId)
    requires Reachable(s)
    ensures Potential(s, f) <= 1
  {
    ReachableIsGood(s);
    PotentialAtMostOne(s, f);
  }

  lemma QuietLoses(s: State, a: Action, f: FamilyId)
    requires Enabled(s, a) && QuietAction(s, a)
    ensures LiveRows(Step(s, a), f) <= LiveRows(s, f) && Minters(Step(s, a), f) <= Minters(s, f)
    ensures Potential(Step(s, a), f) <= Potential(s, f)
  {
    QuietActionsAreQuiet(s, a);
    hide Step, QuietAction, Enabled;
    SubsetCard(LiveRows(Step(s, a), f), LiveRows(s, f));
    SubsetCard(Minters(Step(s, a), f), Minters(s, f));
  }

  lemma SpendTakesLive(s: State, r: RequestId, h: Hash, p: Platform, f: FamilyId)
    requires Spendable(s.rows, h, s.now)
    ensures LiveRows(PresentStep(s, r, h, p), f) == LiveRows(s, f) - if s.rows[h].family == f then {h} else {}
  {
    var s' := PresentStep(s, r, h, p);
    assert s'.rows == Use(s.rows, h, s.now);
    hide PresentStep;
  }

  lemma SpendAddsMinter(s: State, r: RequestId, h: Hash, p: Platform, f: FamilyId)
    requires NewRequest(s, r) && Spendable(s.rows, h, s.now)
    ensures Minters(PresentStep(s, r, h, p), f) == Minters(s, f) + if s.rows[h].family == f then {r} else {}
  {
    var s' := PresentStep(s, r, h, p);
    assert s'.flight == s.flight[r := Minting(s.rows[h].family, s.rows[h].user, p, s.now)];
    hide PresentStep;
  }

  lemma SpendMoves(s: State, r: RequestId, h: Hash, p: Platform, f: FamilyId)
    requires NewRequest(s, r) && Spendable(s.rows, h, s.now)
    ensures Potential(PresentStep(s, r, h, p), f) == Potential(s, f)
  {
    SpendTakesLive(s, r, h, p, f);
    SpendAddsMinter(s, r, h, p, f);
    hide PresentStep;
    assert s.rows[h].family == f ==> h in LiveRows(s, f) && r !in Minters(s, f);
    hide LiveRows, Minters;
  }

  lemma InsertAddsLive(s: State, r: RequestId, h: Hash, at: Time, f: FamilyId)
    requires RowInv(s) && Enabled(s, Insert(r, h, at))
    ensures LiveRows(InsertStep(s, r, h, at), f) == LiveRows(s, f) + if s.flight[r].family == f then {h} else {}
  {
    assert h in s.rows ==> RowOk(s, h);
    hide RowInv;
  }

  lemma InsertMoves(s: State, r: RequestId, h: Hash, at: Time, f: FamilyId)
    requires RowInv(s) && Enabled(s, Insert(r, h, at))
    ensures Potential(InsertStep(s, r, h, at), f) == Potential(s, f)
  {
    InsertAddsLive(s, r, h, at, f);
    assert Minters(InsertStep(s, r, h, at), f) == Minters(s, f) - if s.flight[r].family == f then {r} else {};
    assert s.flight[r].family == f ==> r in Minters(s, f);
    assert h in s.rows ==> RowOk(s, h);
    assert h !in LiveRows(s, f);
    hide InsertStep, LiveRows, Minters, RowInv;
  }

  // Once a family is born its potential never grows: a spend turns a live row into a pending INSERT,
  // an INSERT turns that into a live row, and everything else only loses them.
  lemma PotentialNeverGrows(s: State, a: Action, f: FamilyId)
    requires Inv(s) && Enabled(s, a) && f in s.log.chain
    ensures Potential(Step(s, a), f) <= Potential(s, f)
  {
    var s' := Step(s, a);
    if QuietAction(s, a) {
      QuietLoses(s, a, f);
    } else if a.Begin? {
      assert Minters(s', f) <= Minters(s, f) by { hide Inv; }
      SubsetCard(LiveRows(s', f), LiveRows(s, f));
      SubsetCard(Minters(s', f), Minters(s, f));
    } else if a.Insert? {
      InsertMoves(s, a.req, a.hash, a.mintedAt, f);
    } else {
      SpendMoves(s, a.req, a.hash, a.platform, f);
    }
  }

  // ----- Death is absorbing -----

  lemma QuietKeepsLog(s: State, s': State)
    requires Quiet(s, s')
    ensures s'.log == s.log
  {
  }

  lemma SpendIsLogged(s: State, r: RequestId, h: Hash, p: Platform, f: FamilyId)
    requires Spendable(s.rows, h, s.now) && s.rows[h].family != f && f in s.log.spends
    ensures var log := PresentStep(s, r, h, p).log;
            log.chain == s.log.chain && f in log.spends && log.spends[f] == s.log.spends[f]
  {
  }

  lemma InsertIsLogged(s: State, r: RequestId, h: Hash, at: Time, f: FamilyId)
    requires r in s.flight && s.flight[r].Minting? && s.flight[r].family != f && f in s.log.chain
    ensures var log := InsertStep(s, r, h, at).log;
            log.spends == s.log.spends && f in log.chain && log.chain[f] == s.log.chain[f]
  {
  }

  lemma NothingMovesDead(s: State, a: Action, f: FamilyId)
    requires Enabled(s, a) && f in s.log.owner && f in s.log.chain && f in s.log.spends
    requires LiveRows(s, f) == {} && Minters(s, f) == {}
    ensures f in Step(s, a).log.chain && Step(s, a).log.chain[f] == s.log.chain[f]
    ensures f in Step(s, a).log.spends && Step(s, a).log.spends[f] == s.log.spends[f]
  {
    if QuietAction(s, a) {
      QuietActionsAreQuiet(s, a);
      hide *;
      QuietKeepsLog(s, Step(s, a));
    } else if a.Present? {
      assert a.hash !in LiveRows(s, f);
      SpendIsLogged(s, a.req, a.hash, a.platform, f);
      hide LiveRows, Minters, PresentStep;
    } else if a.Insert? {
      assert a.req !in Minters(s, f);
      InsertIsLogged(s, a.req, a.hash, a.mintedAt, f);
      hide LiveRows, Minters, InsertStep;
    }
  }

  lemma DeadFamilySpendsNothing(s: State, a: Action, f: FamilyId)
    requires Inv(s) && Enabled(s, a) && f in s.log.chain && Potential(s, f) == 0
    ensures f in Step(s, a).log.chain && Potential(Step(s, a), f) == 0
    ensures Step(s, a).log.spends[f] == s.log.spends[f] && Step(s, a).log.chain[f] == s.log.chain[f]
  {
    assert FamilyOk(s, f);
    assert LiveRows(s, f) == {} && Minters(s, f) == {};
    hide Inv, Step, Enabled, LiveRows, Minters;
    PotentialNeverGrows(s, a, f);
    NothingMovesDead(s, a, f);
  }

  // No continuation, however it interleaves requests, sweeps and the clock, ever spends or issues
  // another token of a dead family.
  lemma {:induction false} DeathIsAbsorbing(s: State, run: seq<Action>, f: FamilyId)
    requires Inv(s) && Runs(s, run) && f in s.log.chain && Potential(s, f) == 0
    ensures f in Exec(s, run).log.chain && Potential(Exec(s, run), f) == 0
    ensures f in s.log.spends && f in Exec(s, run).log.spends
    ensures Exec(s, run).log.spends[f] == s.log.spends[f] && Exec(s, run).log.chain[f] == s.log.chain[f]
    decreases |run|
  {
    assert FamilyOk(s, f);
    if run != [] {
      StepKeepsInv(s, run[0]);
      DeadFamilySpendsNothing(s, run[0], f);
      hide Inv, Potential, Step;
      DeathIsAbsorbing(Step(s, run[0]), run[1..], f);
    }
  }

  ghost predicate AllRevoked(s: State, f: FamilyId) {
    forall h <- s.rows :: s.rows[h].family == f ==> s.rows[h].revokedAt.Some?
  }

  lemma RevokeClears(s: State, r: RequestId)
    requires Enabled(s, Revoke(r))
    ensures var s' := Step(s, Revoke(r)); var f := s.flight[r].family;
            AllRevoked(s', f) && LiveRows(s', f) == {} && Minters(s', f) == Minters(s, f)
  {
  }

  // A revoke kills its family exactly when no INSERT of that family is pending: a successor that is
  // inserted after the revoke is not covered by it.
  lemma RevokeKillsExactlyWithoutMinter(s: State, r: RequestId)
    requires Inv(s) && Enabled(s, Revoke(r))
    ensures Potential(Step(s, Revoke(r)), s.flight[r].family) == 0 <==> Minters(s, s.flight[r].family) == {}
    ensures forall h <- Step(s, Revoke(r)).rows ::
              Step(s, Revoke(r)).rows[h].family == s.flight[r].family ==> Step(s, Revoke(r)).rows[h].revokedAt.Some?
  {
    hide Inv;
    RevokeClears(s, r);
  }

  // Such a run: a spend, a Logout of the same token that revokes the family, and only then the INSERT
  // of the spend's successor, which can be spent.
  ghost function EscapeRun(q: RequestId, r: RequestId, h: Hash, p: Platform, next: Hash, now: Time): seq<Action> {
    [Present(q, h, p), LogoutLookup(r, h)] + [Revoke(r), Insert(q, next, now)]
  }

  lemma SpendThenLogout(s: State, q: RequestId, r: RequestId, h: Hash, p: Platform)
    requires Spendable(s.rows, h, s.now) && q != r && NewRequest(s, q) && NewRequest(s, r)
    ensures Enabled(s, Present(q, h, p)) && Enabled(Step(s, Present(q, h, p)), LogoutLookup(r, h))
    ensures var f := s.rows[h].family;
            var s2 := Step(Step(s, Present(q, h, p)), LogoutLookup(r, h));
            && s2.flight == s.flight[q := Minting(f, s.rows[h].user, p, s.now)][r := Revoking(f)]
            && s2.rows == Use(s.rows, h, s.now) && s2.now == s.now && s2.config == s.config
            && (forall next | next != h && Fresh(s, next) :: Fresh(s2, next))
  {
    var s1 := PresentStep(s, q, h, p);
    assert s1.flight == s.flight[q := Minting(s.rows[h].family, s.rows[h].user, p, s.now)];
  }

  lemma RevokeThenInsert(s: State, q: RequestId, r: RequestId, next: Hash, h: Hash)
    requires q != r && q in s.flight && s.flight[q].Minting? && s.flight[q].since == s.now
    requires r in s.flight && s.flight[r] == Revoking(s.flight[q].family)
    requires Fresh(s, next) && next != h && h in s.rows && s.rows[h].family == s.flight[q].family
    requires Ttl(s.config, s.flight[q].platform) > 0
    ensures Enabled(s, Revoke(r)) && Enabled(Step(s, Revoke(r)), Insert(q, next, s.now))
    ensures var s' := Step(Step(s, Revoke(r)), Insert(q, next, s.now));
            && Spendable(s'.rows, next, s'.now) && s'.rows[next].family == s.flight[q].family
            && h in s'.rows && s'.rows[h].revokedAt.Some?
  {
  }

  lemma SuccessorEscapesRevoke(s: State, q: RequestId, r: RequestId, h: Hash, p: Platform, next: Hash)
    requires Spendable(s.rows, h, s.now) && Fresh(s, next) && next != h && Ttl(s.config, p) > 0
    requires q != r && NewRequest(s, q) && NewRequest(s, r)
    ensures Runs(s, EscapeRun(q, r, h, p, next, s.now))
    ensures var s' := Exec(s, EscapeRun(q, r, h, p, next, s.now));
            && Spendable(s'.rows, next, s'.now) && s'.rows[next].family == s.rows[h].family
            && h in s'.rows && s'.rows[h].revokedAt.Some?
  {
    SpendThenLogout(s, q, r, h, p);
    var s2 := Step(Step(s, Present(q, h, p)), LogoutLookup(r, h));
    RevokeThenInsert(s2, q, r, next, h);
    hide Step, Enabled, Fresh, Spendable, Runs, Exec;
    TwoSteps(s, Present(q, h, p), LogoutLookup(r, h));
    TwoSteps(s2, Revoke(r), Insert(q, next, s.now));
    Join(s, [Present(q, h, p), LogoutLookup(r, h)], [Revoke(r), Insert(q, next, s.now)]);
  }

  // ----- Reuse detection -----

  // The statements of one Refresh that presents h, when its spend finds nothing and the look-up
  // finds a used row.
  ghost function ReplayRun(r: RequestId, h: Hash, p: Platform): seq<Action> {
    [Present(r, h, p), Lookup(r), Revoke(r)]
  }

  lemma ReplayIsRefused(s: State, r: RequestId, h: Hash, p: Platform)
    requires NewRequest(s, r) && h in s.rows && s.rows[h].usedAt.Some?
    ensures var s1 := Step(s, Present(r, h, p));
            && Enabled(s1, Lookup(r))
            && var s2 := Step(s1, Lookup(r));
            && s2.flight == s.flight[r := Revoking(s.rows[h].family)] && s2.rows == s.rows
            && Enabled(s2, Revoke(r))
  {
    var s1 := Step(s, Present(r, h, p));
    assert s1.flight == s.flight[r := Failed(h)] && s1.rows == s.rows;
    hide PresentStep;
  }

  // Inside its grace a spent token is still stored, as spent.
  lemma SpentIsStored(s: State, h: Hash)
    requires RowInv(s) && Spent(s, h) && s.now < s.log.minted[h].expiresAt + 2592000
    ensures h in s.rows && s.rows[h].usedAt.Some? && s.rows[h].family == s.log.minted[h].family
  {
    assert Kept(s, h) && RowOk(s, h);
  }

  lemma RevokingIsNotMinting(s: State, s': State, r: RequestId, f: FamilyId)
    requires r !in s.flight && s'.flight == s.flight[r := Revoking(f)]
    ensures Minters(s', f) == Minters(s, f)
  {
  }

  // Complete: in any reachable state, a Refresh that presents a spent token before its expiry plus
  // the grace leaves no unrevoked row in the family, and with no INSERT pending the family is dead.
  lemma ReuseIsDetected(s: State, r: RequestId, h: Hash, p: Platform)
    requires Inv(s) && NewRequest(s, r) && Spent(s, h)
    requires s.now < s.log.minted[h].expiresAt + 2592000
    ensures Runs(s, ReplayRun(r, h, p))
    ensures AllRevoked(Exec(s, ReplayRun(r, h, p)), s.log.minted[h].family)
    ensures Minters(s, s.log.minted[h].family) == {} ==>
              Potential(Exec(s, ReplayRun(r, h, p)), s.log.minted[h].family) == 0
  {
    SpentIsStored(s, h);
    var f := s.rows[h].family;
    hide Inv, Step, Enabled, Runs, Exec, NewRequest, Spent, AllRevoked, LiveRows, Minters;
    ReplayIsRefused(s, r, h, p);
    var s2 := Step(Step(s, Present(r, h, p)), Lookup(r));
    RevokingIsNotMinting(s, s2, r, f);
    RevokeClears(s2, r);
    ThreeSteps(s, Present(r, h, p), Lookup(r), Revoke(r));
  }

  lemma FamilyOfTokenIsKept(s: State, h: Hash)
    requires ChainInv(s) && h in s.log.minted
    ensures s.log.minted[h].family in s.log.chain
  {
    assert TokenOk(s, h);
  }

  lemma FamiliesRemainStep(s: State, a: Action, f: FamilyId)
    requires Enabled(s, a) && f in s.log.chain
    ensures f in Step(s, a).log.chain
  {
  }

  lemma {:induction false} FamiliesRemain(s: State, run: seq<Action>, f: FamilyId)
    requires Runs(s, run) && f in s.log.chain
    ensures f in Exec(s, run).log.chain
    decreases |run|
  {
    if run != [] {
      FamiliesRemainStep(s, run[0], f);
      hide Step, Enabled;
      FamiliesRemain(Step(s, run[0]), run[1..], f);
    }
  }

  // After a detected reuse no continuation spends or issues another token of the family.
  lemma ReuseIsFinal(s: State, r: RequestId, h: Hash, p: Platform, later: seq<Action>)
    requires Inv(s) && NewRequest(s, r) && Spent(s, h)
    requires s.now < s.log.minted[h].expiresAt + 2592000 && Minters(s, s.log.minted[h].family) == {}
    requires Runs(s, ReplayRun(r, h, p)) && Runs(Exec(s, ReplayRun(r, h, p)), later)
    ensures var f := s.log.minted[h].family; var end := Exec(Exec(s, ReplayRun(r, h, p)), later);
            && Potential(end, f) == 0
            && f in end.log.spends && f in Exec(s, ReplayRun(r, h, p)).log.spends
            && end.log.spends[f] == Exec(s, ReplayRun(r, h, p)).log.spends[f]
  {
    var f, s3 := s.log.minted[h].family, Exec(s, ReplayRun(r, h, p));
    ReuseIsDetected(s, r, h, p);
    hide Runs, Exec, Potential, Minters;
    ReachableInv(s, ReplayRun(r, h, p));
    FamilyOfTokenIsKept(s, h);
    FamiliesRemain(s, ReplayRun(r, h, p), f);
    hide Inv;
    DeathIsAbsorbing(s3, later, f);
  }

  // Under any interleaving: when a Refresh whose spend failed looks its token up within the grace, it
  // sets out to revoke the family if and only if the token had been spent.
  lemma LookupCatchesExactlyTheSpent(s: State, r: RequestId)
    requires Inv(s) && Enabled(s, Lookup(r)) && s.flight[r].hash in s.log.minted
    requires s.now < s.log.minted[s.flight[r].hash].expiresAt + 2592000
    ensures r in Step(s, Lookup(r)).flight <==> Spent(s, s.flight[r].hash)
    ensures Spent(s, s.flight[r].hash) ==>
              Step(s, Lookup(r)).flight[r] == Revoking(s.log.minted[s.flight[r].hash].family)
  {
    assert Kept(s, s.flight[r].hash) && RowOk(s, s.flight[r].hash);
    hide Inv;
  }

  // Sound: a row is revoked only in a family one of whose tokens went to two Refresh calls or to
  // Logout.  Expiry, an unknown token or a lost response is never enough.
  lemma RevokedOnlyAfterReuseOrLogout(s: State, h: Hash)
    requires Reachable(s) && h in s.rows && s.rows[h].revokedAt.Some?
    ensures Compromised(s, s.rows[h].family)
  {
    ReachableIsGood(s);
  }

  ghost function AfterLogout(s: State, r: RequestId, h: Hash): State
    requires NewRequest(s, r) && h in s.rows
  {
    Step(Step(s, LogoutLookup(r, h)), Revoke(r))
  }

  lemma LogoutReads(s: State, r: RequestId, h: Hash)
    requires NewRequest(s, r) && h in s.rows
    ensures var s1 := Step(s, LogoutLookup(r, h)); var f := s.rows[h].family;
            && Enabled(s1, Revoke(r)) && s1.flight[r] == Revoking(f)
            && Minters(s1, f) == Minters(s, f) && s1.log == s.log && Step(s1, Revoke(r)).log == s.log
  {
    var f := s.rows[h].family;
    var s1 := LogoutStep(s, r, h);
    assert s1.flight == s.flight[r := Revoking(f)] && s1.log == s.log;
    hide LogoutStep;
  }

  lemma LogoutKills(s: State, r: RequestId, h: Hash)
    requires Inv(s) && NewRequest(s, r) && h in s.rows
    ensures Inv(AfterLogout(s, r, h)) && AfterLogout(s, r, h).log == s.log
    ensures AllRevoked(AfterLogout(s, r, h), s.rows[h].family)
    ensures Potential(AfterLogout(s, r, h), s.rows[h].family) == 0 <==> Minters(s, s.rows[h].family) == {}
  {
    var s1 := Step(s, LogoutLookup(r, h));
    hide Inv, Step, Minters, LiveRows, AllRevoked;
    StepKeepsInv(s, LogoutLookup(r, h));
    LogoutReads(s, r, h);
    StepKeepsInv(s1, Revoke(r));
    RevokeClears(s1, r);
  }

  // Logout of a stored token ends its family for good when no INSERT of it is pending: whatever
  // happens later, no token of the family is spent or issued again.
  lemma LogoutIsFinal(s: State, r: RequestId, h: Hash, later: seq<Action>)
    requires Inv(s) && NewRequest(s, r) && h in s.rows && Minters(s, s.rows[h].family) == {}
    requires Runs(AfterLogout(s, r, h), later)
    ensures s.rows[h].family in s.log.spends && s.rows[h].family in Exec(AfterLogout(s, r, h), later).log.spends
    ensures Exec(AfterLogout(s, r, h), later).log.spends[s.rows[h].family] == s.log.spends[s.rows[h].family]
    ensures Potential(Exec(AfterLogout(s, r, h), later), s.rows[h].family) == 0
  {
    var f := s.rows[h].family;
    assert RowOk(s, h) && FamilyOk(s, f);
    LogoutKills(s, r, h);
    hide Inv, AfterLogout, Potential, Minters, Step;
    DeathIsAbsorbing(AfterLogout(s, r, h), later, f);
  }

  // ----- The chain -----

  // Tokens of a family form one line: they are spent in the order they were inserted, each at most
  // once and every one but the last exactly once, and all of them keep the family and its user.
  lemma LinearChain(s: State, f: FamilyId)
    requires Reachable(s) && f in s.log.chain
    ensures f in s.log.spends && f in s.log.owner
    ensures s.log.spends[f] <= s.log.chain[f] && |s.log.chain[f]| <= |s.log.spends[f]| + 1
    ensures forall i, j | 0 <= i < j < |s.log.chain[f]| :: s.log.chain[f][i] != s.log.chain[f][j]
    ensures forall i | 0 <= i < |s.log.spends[f]| ::
              s.log.spends[f][i] in s.log.spentBy
    ensures forall h <- s.rows :: s.rows[h].family == f ==>
              h in s.log.chain[f] && s.rows[h].user == s.log.owner[f]
  {
    ReachableIsGood(s);
    assert FamilyOk(s, f) && ListedOk(s, f);
    forall i, j | 0 <= i < j < |s.log.chain[f]| ensures s.log.chain[f][i] != s.log.chain[f][j] {
      assert PlacedAt(s, s.log.chain[f][i], f, i) && PlacedAt(s, s.log.chain[f][j], f, j);
    }
    forall i | 0 <= i < |s.log.spends[f]| ensures s.log.spends[f][i] in s.log.spentBy {
      assert PlacedAt(s, s.log.chain[f][i], f, i);
      assert Spent(s, s.log.chain[f][i]);
    }
    forall h <- s.rows | s.rows[h].family == f
      ensures h in s.log.chain[f] && s.rows[h].user == s.log.owner[f]
    {
      assert RowOk(s, h) && TokenOk(s, h);
    }
  }

  // ----- Rows -----

  // The row an INSERT stores: of the session's user and family, and of the web lifetime exactly when the
  // platform is "web".
  lemma InsertStores(s: State, r: RequestId, h: Hash, at: Time)
    requires Enabled(s, Insert(r, h, at))
    ensures var pc, rows := s.flight[r], Step(s, Insert(r, h, at)).rows;
            && rows.Keys == s.rows.Keys + {h} && (forall g <- s.rows :: g != h ==> rows[g] == s.rows[g])
            && rows[h].user == pc.user && rows[h].family == pc.family
            && rows[h].usedAt == None && rows[h].revokedAt == None
            && (pc.platform == "" ==> rows[h].platform == None)
            && (pc.platform != "" ==> rows[h].platform == Some(pc.platform))
            && (pc.platform == "web" ==> rows[h].expiresAt == at + s.config.ttlWeb)
            && (pc.platform != "web" ==> rows[h].expiresAt == at + s.config.ttlMobile)
  {
  }

  // The sweeper keeps a row for thirty days of 86400 seconds after it expired, and touches no other.
  lemma SweepKeepsThirtyDays(s: State)
    ensures var rows := Step(s, Sweep).rows;
            && (forall h :: h in rows <==> h in s.rows && s.now < s.rows[h].expiresAt + 2592000)
            && (forall h <- rows :: rows[h] == s.rows[h])
  {
  }

  // Of a stored row only the two stamps are ever written, each once and with the time it is.
  predicate WrittenOnce(before: Row, after: Row, from: Time, to: Time) {
    && after.user == before.user && after.family == before.family && after.platform == before.platform
    && after.expiresAt == before.expiresAt
    && (after.usedAt == before.usedAt || (before.usedAt == None && from <= after.usedAt.value <= to))
    && (after.revokedAt == before.revokedAt || (before.revokedAt == None && from <= after.revokedAt.value <= to))
  }

  lemma StepWritesOnce(s: State, a: Action, h: Hash)
    requires RowInv(s) && Enabled(s, a) && h in s.rows
    ensures h in Step(s, a).rows ==> WrittenOnce(s.rows[h], Step(s, a).rows[h], s.now, s.now)
    ensures h in Step(s, a).rows ==> WrittenOnce(s.rows[h], Step(s, a).rows[h], s.now, Step(s, a).now)
    ensures s.now <= Step(s, a).now
  {
    assert RowOk(s, h);
    hide RowInv;
  }

  lemma StepKeepsMinted(s: State, a: Action, h: Hash)
    requires Enabled(s, a) && h in s.log.minted
    ensures h in Step(s, a).log.minted && (h !in s.rows ==> h !in Step(s, a).rows)
  {
  }

  lemma {:induction false} GoneStaysGone(s: State, run: seq<Action>, h: Hash)
    requires Runs(s, run) && h in s.log.minted && h !in s.rows
    ensures h !in Exec(s, run).rows
    decreases |run|
  {
    if run != [] {
      StepKeepsMinted(s, run[0], h);
      hide Step, Enabled;
      GoneStaysGone(Step(s, run[0]), run[1..], h);
    }
  }

  lemma StoredIsMinted(s: State, h: Hash)
    requires Inv(s) && h in s.rows
    ensures RowInv(s) && h in s.log.minted
  {
    assert RowOk(s, h);
  }

  lemma WritesCompose(a: Row, b: Row, c: Row, from: Time, mid: Time, to: Time)
    requires WrittenOnce(a, b, from, mid) && WrittenOnce(b, c, mid, to) && from <= mid <= to
    ensures WrittenOnce(a, c, from, to)
  {
  }

  // Over any run.
  lemma {:induction false} RowsAreWrittenOnce(s: State, run: seq<Action>, h: Hash)
    requires Inv(s) && Runs(s, run) && h in s.rows && h in Exec(s, run).rows
    ensures s.now <= Exec(s, run).now
    ensures WrittenOnce(s.rows[h], Exec(s, run).rows[h], s.now, Exec(s, run).now)
    decreases |run|
  {
    if run != [] {
      StoredIsMinted(s, h);
      hide Inv, RowInv, Step, Enabled, WrittenOnce;
      var s1 := Step(s, run[0]);
      StepKeepsInv(s, run[0]);
      StepWritesOnce(s, run[0], h);
      StepKeepsMinted(s, run[0], h);
      if h !in s1.rows {
        GoneStaysGone(s1, run[1..], h);
      }
      RowsAreWrittenOnce(s1, run[1..], h);
      WritesCompose(s.rows[h], s1.rows[h], Exec(s, run).rows[h], s.now, s1.now, Exec(s, run).now);
    } else {
      hide Inv;
    }
  }
}
