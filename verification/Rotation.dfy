// The rotation protocol of internal/auth/session.go as an interleaved state machine: one SQL
// statement per step, any number of requests in flight, and a sweeper and a clock that may move at
// any time.  A request whose statement or connection fails simply stops (Abort).

module Rotation {
  import opened Core
  import opened RefreshTokens

  datatype Config = Config(ttlWeb: Time, ttlMobile: Time)

  function Ttl(c: Config, p: Platform): Time {
    if IsWeb(p) then c.ttlWeb else c.ttlMobile
  }

  // Where a request that has not finished stands: before its INSERT, after a spend that matched no
  // row, or before its family revoke.
  datatype Pc =
    | Minting(family: FamilyId, user: UserId, platform: Platform, since: Time)
    | Failed(hash: Hash)
    | Revoking(family: FamilyId)

  // A token as it was inserted, kept after the row itself is deleted: `index` is its place in the chain.
  datatype Mint = Mint(family: FamilyId, index: nat, expiresAt: Time)

  datatype Presentation = ToRefresh(hash: Hash) | ToLogout(hash: Hash)

  // What has happened so far.  Only freshness reads it; the protocol itself never does.
  datatype Log = Log(
    owner: map<FamilyId, UserId>,         // who each family was started for
    chain: map<FamilyId, seq<Hash>>,      // tokens in the order they were inserted
    spends: map<FamilyId, seq<Hash>>,     // tokens in the order they were spent
    minted: map<Hash, Mint>,
    spentBy: map<Hash, RequestId>,
    issued: set<UserId>)                  // users an access token was minted for

  datatype State = State(
    config: Config,
    now: Time,
    rows: Table,
    flight: map<RequestId, Pc>,
    presented: map<RequestId, Presentation>,
    log: Log)

  datatype Action =
    | Tick(to: Time)
    | Begin(req: RequestId, user: UserId, family: FamilyId, platform: Platform)
    | Present(req: RequestId, hash: Hash, platform: Platform)
    | Insert(req: RequestId, hash: Hash, mintedAt: Time)
    | Lookup(req: RequestId)
    | Revoke(req: RequestId)
    | LogoutLookup(req: RequestId, hash: Hash)
    | Abort(req: RequestId)
    | Sweep

  function Init(config: Config, now: Time): State {
    State(config, now, map[], map[], map[], Log(map[], map[], map[], map[], map[], {}))
  }

  // Opaque tokens carry 256 random bits: a new one was never stored and never sent by anybody.
  predicate Fresh(s: State, h: Hash) {
    h !in s.log.minted && forall r <- s.presented :: s.presented[r].hash != h
  }

  predicate NewRequest(s: State, r: RequestId) {
    r !in s.flight && r !in s.presented
  }

  // When a step can happen.  Nothing here depends on the stored rows.
  predicate Enabled(s: State, a: Action) {
    match a
    case Tick(to) => s.now <= to
    case Begin(r, _, f, _) => r !in s.flight && f !in s.log.owner
    case Present(r, _, _) => NewRequest(s, r)
    case Insert(r, h, at) => r in s.flight && s.flight[r].Minting? && Fresh(s, h) && s.flight[r].since <= at <= s.now
    case Lookup(r) => r in s.flight && s.flight[r].Failed?
    case Revoke(r) => r in s.flight && s.flight[r].Revoking?
    case LogoutLookup(r, _) => NewRequest(s, r)
    case Abort(r) => r in s.flight
    case Sweep => true
  }

  function Logged(m: map<FamilyId, seq<Hash>>, f: FamilyId): seq<Hash> {
    if f in m then m[f] else []
  }

  function Append(m: map<FamilyId, seq<Hash>>, f: FamilyId, h: Hash): map<FamilyId, seq<Hash>> {
    m[f := Logged(m, f) + [h]]
  }

  // UseRefreshToken, and on success the access token that is minted before the INSERT.
  function PresentStep(s: State, r: RequestId, h: Hash, p: Platform): State {
    var s1 := s.(presented := s.presented[r := ToRefresh(h)]);
    if Spendable(s.rows, h, s.now) then
      var row := s.rows[h];
      s1.(rows := Use(s.rows, h, s.now),
          flight := s.flight[r := Minting(row.family, row.user, p, s.now)],
          log := s.log.(spends := Append(s.log.spends, row.family, h), spentBy := s.log.spentBy[h := r],
                        issued := s.log.issued + {row.user}))
    else
      s1.(flight := s.flight[r := Failed(h)])
  }

  // CreateRefreshToken, whose expiry was computed at `at`, some time after the spend.
  function InsertStep(s: State, r: RequestId, h: Hash, at: Time): State
    requires r in s.flight && s.flight[r].Minting?
  {
    var pc := s.flight[r];
    var expires := at + Ttl(s.config, pc.platform);
    var platform := if pc.platform == "" then None else Some(pc.platform);
    s.(rows := s.rows[h := Row(pc.user, pc.family, platform, None, None, expires)],
       flight := s.flight - {r},
       log := s.log.(chain := Append(s.log.chain, pc.family, h),
                     minted := s.log.minted[h := Mint(pc.family, |Logged(s.log.chain, pc.family)|, expires)]))
  }

  // RefreshTokenByHash after a failed spend: only a token that was used is a replay.
  function LookupStep(s: State, r: RequestId): State
    requires r in s.flight && s.flight[r].Failed?
  {
    var h := s.flight[r].hash;
    if h in s.rows && s.rows[h].usedAt.Some? then
      s.(flight := s.flight[r := Revoking(s.rows[h].family)])
    else
      s.(flight := s.flight - {r})
  }

  // RefreshTokenByHash on behalf of Logout, which revokes whatever it finds.
  function LogoutStep(s: State, r: RequestId, h: Hash): State {
    var s1 := s.(presented := s.presented[r := ToLogout(h)]);
    if h in s.rows then s1.(flight := s.flight[r := Revoking(s.rows[h].family)]) else s1
  }

  function Step(s: State, a: Action): State
    requires Enabled(s, a)
  {
    match a
    case Tick(to) => s.(now := to)
    case Begin(r, u, f, p) =>
      s.(flight := s.flight[r := Minting(f, u, p, s.now)],
         log := s.log.(owner := s.log.owner[f := u], chain := s.log.chain[f := []],
                       spends := s.log.spends[f := []], issued := s.log.issued + {u}))
    case Present(r, h, p) => PresentStep(s, r, h, p)
    case Insert(r, h, at) => InsertStep(s, r, h, at)
    case Lookup(r) => LookupStep(s, r)
    case Revoke(r) =>
      s.(rows := RevokeFamily(s.rows, s.flight[r].family, s.now), flight := s.flight - {r})
    case LogoutLookup(r, h) => LogoutStep(s, r, h)
    case Abort(r) => s.(flight := s.flight - {r})
    case Sweep => s.(rows := DeleteExpired(s.rows, s.now))
  }

  // ----- Runs -----

  ghost predicate Runs(s: State, run: seq<Action>)
    decreases |run|
  {
    run == [] || (Enabled(s, run[0]) && Runs(Step(s, run[0]), run[1..]))
  }

  ghost function Exec(s: State, run: seq<Action>): State
    requires Runs(s, run)
    decreases |run|
  {
    if run == [] then s else Exec(Step(s, run[0]), run[1..])
  }

  lemma TwoSteps(s: State, a: Action, b: Action)
    requires Enabled(s, a) && Enabled(Step(s, a), b)
    ensures Runs(s, [a, b]) && Exec(s, [a, b]) == Step(Step(s, a), b)
  {
    hide Step, Enabled;
    var s1 := Step(s, a);
    var s2 := Step(s1, b);
    assert Runs(s2, []) && Exec(s2, []) == s2;
    assert [b][1..] == [] && Runs(s1, [b]) && Exec(s1, [b]) == s2;
    assert [a, b][1..] == [b];
  }

  lemma ThreeSteps(s: State, a: Action, b: Action, c: Action)
    requires Enabled(s, a) && Enabled(Step(s, a), b) && Enabled(Step(Step(s, a), b), c)
    ensures Runs(s, [a, b, c]) && Exec(s, [a, b, c]) == Step(Step(Step(s, a), b), c)
  {
    hide Step, Enabled;
    var s1 := Step(s, a);
    var s2 := Step(s1, b);
    var s3 := Step(s2, c);
    assert Runs(s3, []) && Exec(s3, []) == s3;
    assert [c][1..] == [] && Runs(s2, [c]) && Exec(s2, [c]) == s3;
    assert [b, c][1..] == [c] && Runs(s1, [b, c]);
    assert [a, b, c][1..] == [b, c];
  }

  // One run after another is a run.
  lemma {:induction false} Join(s: State, xs: seq<Action>, ys: seq<Action>)
    requires Runs(s, xs) && Runs(Exec(s, xs), ys)
    ensures Runs(s, xs + ys) && Exec(s, xs + ys) == Exec(Exec(s, xs), ys)
    decreases |xs|
  {
    hide Step, Enabled;
    if xs == [] {
      assert xs + ys == ys;
    } else {
      assert (xs + ys)[1..] == xs[1..] + ys;
      Join(Step(s, xs[0]), xs[1..], ys);
    }
  }

  // ----- Invariants -----

  // The history of a family is one line: tokens are spent in the order they were inserted, and at
  // most one of them, the last, is waiting to be spent.
  predicate FamilyOk(s: State, f: FamilyId)
    requires f in s.log.chain
  {
    && f in s.log.owner && f in s.log.spends
    && |s.log.spends[f]| <= |s.log.chain[f]| <= |s.log.spends[f]| + 1
    && s.log.spends[f] == s.log.chain[f][..|s.log.spends[f]|]
  }

  predicate PlacedAt(s: State, h: Hash, f: FamilyId, i: nat) {
    h in s.log.minted && s.log.minted[h].family == f && s.log.minted[h].index == i
  }

  predicate ListedOk(s: State, f: FamilyId)
    requires f in s.log.chain
  {
    forall i | 0 <= i < |s.log.chain[f]| :: PlacedAt(s, s.log.chain[f][i], f, i)
  }

  predicate TokenOk(s: State, h: Hash)
    requires h in s.log.minted
  {
    && s.log.minted[h].family in s.log.chain
    && s.log.minted[h].index < |s.log.chain[s.log.minted[h].family]|
    && s.log.chain[s.log.minted[h].family][s.log.minted[h].index] == h
  }

  predicate Spent(s: State, h: Hash) {
    h in s.log.minted && s.log.minted[h].index < |Logged(s.log.spends, s.log.minted[h].family)|
  }

  predicate ChainInv(s: State) {
    && s.log.owner.Keys == s.log.chain.Keys
    && (forall f <- s.log.chain :: FamilyOk(s, f) && ListedOk(s, f))
    && (forall h <- s.log.minted :: TokenOk(s, h))
  }

  // A stored row agrees with the history, and a row inside its grace period is still stored.
  predicate RowOk(s: State, h: Hash)
    requires h in s.rows
  {
    && h in s.log.minted
    && s.log.minted[h].family in s.log.owner
    && s.rows[h].family == s.log.minted[h].family
    && s.rows[h].user == s.log.owner[s.log.minted[h].family]
    && s.rows[h].expiresAt == s.log.minted[h].expiresAt
    && (s.rows[h].usedAt.Some? <==> Spent(s, h))
  }

  predicate Kept(s: State, h: Hash)
    requires h in s.log.minted
  {
    s.now < s.log.minted[h].expiresAt + GRACE ==> h in s.rows
  }

  predicate RowInv(s: State) {
    (forall h <- s.rows :: RowOk(s, h)) && (forall h <- s.log.minted :: Kept(s, h))
  }

  // A pending INSERT belongs to a family whose tokens are all spent, and it is the only one there.
  predicate MintingOk(s: State, r: RequestId)
    requires r in s.flight && s.flight[r].Minting?
  {
    var pc := s.flight[r];
    && pc.family in s.log.chain && pc.family in s.log.owner
    && |Logged(s.log.spends, pc.family)| == |s.log.chain[pc.family]|
    && s.log.owner[pc.family] == pc.user
    && pc.since <= s.now
  }

  predicate FlightInv(s: State) {
    && (forall r <- s.flight :: s.flight[r].Minting? ==> MintingOk(s, r))
    && (forall q, r | q in s.flight && r in s.flight && s.flight[q].Minting? && s.flight[r].Minting? ::
          s.flight[q].family == s.flight[r].family ==> q == r)
  }

  // Each spend has one request behind it ...
  predicate SpenderOk(s: State, h: Hash)
    requires h in s.log.spentBy
  {
    s.log.spentBy[h] in s.presented && s.presented[s.log.spentBy[h]] == ToRefresh(h)
  }

  predicate SpendInv(s: State) {
    && (forall h <- s.log.minted :: Spent(s, h) <==> h in s.log.spentBy)
    && (forall h <- s.log.spentBy :: h in s.log.minted && SpenderOk(s, h))
  }

  // ... and a request whose own spend failed is another one.
  predicate FailedOk(s: State, r: RequestId)
    requires r in s.flight && s.flight[r].Failed?
  {
    && r in s.presented && s.presented[r] == ToRefresh(s.flight[r].hash)
    && (s.flight[r].hash in s.log.spentBy ==> s.log.spentBy[s.flight[r].hash] != r)
  }

  predicate FailureInv(s: State) {
    forall r <- s.flight :: s.flight[r].Failed? ==> FailedOk(s, r)
  }

  predicate InFamily(s: State, h: Hash, f: FamilyId) {
    h in s.log.minted && s.log.minted[h].family == f
  }

  // A token of the family was sent to two different Refresh calls, or to Logout.
  ghost predicate Replayed(s: State, f: FamilyId, q: RequestId, r: RequestId) {
    && q != r && q in s.presented && r in s.presented
    && s.presented[q].ToRefresh? && s.presented[r] == s.presented[q]
    && InFamily(s, s.presented[q].hash, f)
  }

  ghost predicate LoggedOut(s: State, f: FamilyId, r: RequestId) {
    r in s.presented && s.presented[r].ToLogout? && InFamily(s, s.presented[r].hash, f)
  }

  ghost predicate Compromised(s: State, f: FamilyId) {
    (exists q, r :: Replayed(s, f, q, r)) || (exists r :: LoggedOut(s, f, r))
  }

  ghost predicate RevokeInv(s: State) {
    && (forall h <- s.rows :: s.rows[h].revokedAt.Some? ==> Compromised(s, s.rows[h].family))
    && (forall r <- s.flight :: s.flight[r].Revoking? ==> Compromised(s, s.flight[r].family))
  }

  ghost predicate Inv(s: State) {
    ChainInv(s) && RowInv(s) && FlightInv(s) && SpendInv(s) && FailureInv(s) && RevokeInv(s)
  }

  // ----- Every step keeps the invariant -----

  lemma InitInv(config: Config, now: Time)
    ensures Inv(Init(config, now))
  {
  }

  // An unused row is the last token of its chain.
  lemma UnusedIsLast(s: State, h: Hash)
    requires ChainInv(s) && RowInv(s) && h in s.rows && s.rows[h].usedAt.None?
    ensures RowOk(s, h) && s.rows[h].family in s.log.chain && FamilyOk(s, s.rows[h].family) && TokenOk(s, h)
    ensures var f := s.rows[h].family;
            && |s.log.chain[f]| == |s.log.spends[f]| + 1 && s.log.minted[h].index == |s.log.spends[f]|
            && s.log.chain[f][|s.log.spends[f]|] == h
  {
    assert RowOk(s, h);
  }

  lemma HistoryOnlyGrows(s: State, s': State)
    requires s.log.minted.Keys <= s'.log.minted.Keys && forall h <- s.log.minted :: s'.log.minted[h] == s.log.minted[h]
    requires s.presented.Keys <= s'.presented.Keys
    requires forall r <- s.presented :: s'.presented[r] == s.presented[r]
    ensures forall f :: Compromised(s, f) ==> Compromised(s', f)
  {
    forall f | Compromised(s, f) ensures Compromised(s', f) {
      if q, r :| Replayed(s, f, q, r) {
        assert Replayed(s', f, q, r);
      } else {
        var r :| LoggedOut(s, f, r);
        assert LoggedOut(s', f, r);
      }
    }
  }

  lemma SpendKeepsChain(s: State, r: RequestId, h: Hash, p: Platform)
    requires ChainInv(s) && RowInv(s) && Spendable(s.rows, h, s.now)
    ensures ChainInv(PresentStep(s, r, h, p))
  {
    hide Kept;
    var s' := PresentStep(s, r, h, p);
    UnusedIsLast(s, h);
    hide RowInv, RowOk;
    var f := s.rows[h].family;
    assert s'.log.spends[f] == s.log.spends[f] + [h] == s.log.chain[f][..|s.log.spends[f]| + 1];
    forall g <- s'.log.chain ensures FamilyOk(s', g) && ListedOk(s', g) {
      assert FamilyOk(s, g) && ListedOk(s, g);
      forall i | 0 <= i < |s'.log.chain[g]| ensures PlacedAt(s', s'.log.chain[g][i], g, i) {
        assert PlacedAt(s, s.log.chain[g][i], g, i);
      }
    }
    forall g <- s'.log.minted ensures TokenOk(s', g) { assert TokenOk(s, g); }
  }

  // A spend marks the token it spends and no other.
  lemma SpendMarks(s: State, r: RequestId, h: Hash, p: Platform, g: Hash)
    requires ChainInv(s) && RowInv(s) && Spendable(s.rows, h, s.now) && g in s.log.minted
    ensures Spent(PresentStep(s, r, h, p), g) <==> Spent(s, g) || g == h
  {
    UnusedIsLast(s, h);
    assert TokenOk(s, g);
    hide RowInv, ChainInv;
  }

  lemma SpendKeepsRows(s: State, r: RequestId, h: Hash, p: Platform)
    requires ChainInv(s) && RowInv(s) && Spendable(s.rows, h, s.now)
    ensures RowInv(PresentStep(s, r, h, p))
  {
    var s' := PresentStep(s, r, h, p);
    forall g <- s'.log.minted ensures Kept(s', g) { assert Kept(s, g); }
    forall g <- s'.rows ensures RowOk(s', g) {
      assert RowOk(s, g);
      SpendMarks(s, r, h, p, g);
      hide Spent, ChainInv;
    }
  }

  lemma SpendKeepsFlight(s: State, r: RequestId, h: Hash, p: Platform)
    requires ChainInv(s) && RowInv(s) && FlightInv(s) && FailureInv(s)
    requires NewRequest(s, r) && Spendable(s.rows, h, s.now)
    ensures FlightInv(PresentStep(s, r, h, p)) && FailureInv(PresentStep(s, r, h, p))
  {
    var s' := PresentStep(s, r, h, p);
    UnusedIsLast(s, h);
    hide ChainInv, RowInv, ListedOk;
    var f := s.rows[h].family;
    forall q <- s'.flight | s'.flight[q].Minting?
      ensures MintingOk(s', q) && (q != r ==> s'.flight[q].family != f)
    {
      assert q == r || MintingOk(s, q);
    }
    forall q <- s'.flight | s'.flight[q].Failed? ensures FailedOk(s', q) { assert FailedOk(s, q); }
  }

  lemma SpentHaveSpenders(s: State, g: Hash)
    requires SpendInv(s) && g in s.log.minted
    ensures Spent(s, g) <==> g in s.log.spentBy
  {
  }

  lemma SpendRecords(s: State, r: RequestId, h: Hash, p: Platform)
    requires RowInv(s) && Spendable(s.rows, h, s.now)
    ensures h in s.log.minted
    ensures var s' := PresentStep(s, r, h, p);
            && s'.log.minted == s.log.minted && s'.log.spentBy == s.log.spentBy[h := r]
            && s'.presented == s.presented[r := ToRefresh(h)]
  {
    assert RowOk(s, h);
    hide RowInv;
  }

  lemma SpendKeepsSpent(s: State, r: RequestId, h: Hash, p: Platform)
    requires ChainInv(s) && RowInv(s) && SpendInv(s) && Spendable(s.rows, h, s.now)
    ensures var s' := PresentStep(s, r, h, p); forall g <- s'.log.minted :: Spent(s', g) <==> g in s'.log.spentBy
  {
    SpendRecords(s, r, h, p);
    var s' := PresentStep(s, r, h, p);
    hide *;
    forall g <- s'.log.minted ensures Spent(s', g) <==> g in s'.log.spentBy {
      SpendMarks(s, r, h, p, g);
      SpentHaveSpenders(s, g);
    }
  }

  lemma SpendKeepsSpenders(s: State, r: RequestId, h: Hash, p: Platform)
    requires ChainInv(s) && RowInv(s) && SpendInv(s)
    requires NewRequest(s, r) && Spendable(s.rows, h, s.now)
    ensures SpendInv(PresentStep(s, r, h, p))
  {
    hide RowInv, ChainInv, Spent, PresentStep, Spendable;
    SpendRecords(s, r, h, p);
    SpendKeepsSpent(s, r, h, p);
    var s' := PresentStep(s, r, h, p);
    forall g <- s'.log.spentBy ensures g in s'.log.minted && SpenderOk(s', g) {
      assert g == h || SpenderOk(s, g);
    }
  }

  // Every step except a spend, an INSERT and the birth of a family is quiet: rows are only revoked
  // or, once past their grace, deleted, and no INSERT becomes pending.
  ghost predicate Quiet(s: State, s': State) {
    && s' == s.(flight := s'.flight, presented := s'.presented, now := s'.now, rows := s'.rows)
    && s.now <= s'.now
    && (forall h <- s'.rows :: h in s.rows && s'.rows[h] == s.rows[h].(revokedAt := s'.rows[h].revokedAt))
    && (forall h <- s.rows :: s'.now < s.rows[h].expiresAt + GRACE ==> h in s'.rows)
    && (forall r <- s.presented :: r in s'.presented && s'.presented[r] == s.presented[r])
    && (forall r <- s'.flight :: s'.flight[r].Minting? ==> r in s.flight && s'.flight[r] == s.flight[r])
  }

  lemma QuietKeepsTables(s: State, s': State)
    requires ChainInv(s) && RowInv(s) && SpendInv(s) && Quiet(s, s')
    ensures ChainInv(s') && RowInv(s') && SpendInv(s')
  {
    forall f <- s'.log.chain ensures FamilyOk(s', f) && ListedOk(s', f) {
      assert FamilyOk(s, f) && ListedOk(s, f);
      forall i | 0 <= i < |s'.log.chain[f]| ensures PlacedAt(s', s'.log.chain[f][i], f, i) {
        assert PlacedAt(s, s.log.chain[f][i], f, i);
      }
    }
    forall h <- s'.log.minted ensures TokenOk(s', h) && Kept(s', h) {
      assert TokenOk(s, h) && Kept(s, h);
      assert h in s.rows ==> RowOk(s, h);
    }
    forall h <- s'.rows ensures RowOk(s', h) { assert RowOk(s, h); }
    forall h <- s'.log.spentBy ensures h in s'.log.minted && SpenderOk(s', h) { assert SpenderOk(s, h); }
  }

  lemma QuietKeepsFlights(s: State, s': State)
    requires FlightInv(s) && Quiet(s, s')
    ensures FlightInv(s')
  {
    forall r <- s'.flight | s'.flight[r].Minting? ensures MintingOk(s', r) { assert MintingOk(s, r); }
  }

  // The INSERT appends its token to its family's chain.
  lemma InsertAppends(s: State, r: RequestId, h: Hash, at: Time)
    requires ChainInv(s) && FlightInv(s) && Enabled(s, Insert(r, h, at))
    ensures var f, s' := s.flight[r].family, InsertStep(s, r, h, at);
            && f in s.log.chain && f in s.log.owner && f in s.log.spends && h !in s.log.minted
            && |s.log.spends[f]| == |s.log.chain[f]|
            && s'.log.chain == s.log.chain[f := s.log.chain[f] + [h]]
            && s'.log.minted.Keys == s.log.minted.Keys + {h} && PlacedAt(s', h, f, |s.log.chain[f]|)
            && (forall g <- s.log.minted :: s'.log.minted[g] == s.log.minted[g])
            && s'.log.owner == s.log.owner && s'.log.spends == s.log.spends
  {
    assert MintingOk(s, r) && FamilyOk(s, s.flight[r].family);
    hide FlightInv, ChainInv;
  }

  lemma InsertKeepsFamilies(s: State, s': State, f: FamilyId, h: Hash)
    requires ChainInv(s) && f in s.log.chain && h !in s.log.minted && f in s.log.spends
    requires |s.log.spends[f]| == |s.log.chain[f]| && s'.log.chain == s.log.chain[f := s.log.chain[f] + [h]]
    requires PlacedAt(s', h, f, |s.log.chain[f]|) && s'.log.owner == s.log.owner && s'.log.spends == s.log.spends
    requires s.log.minted.Keys <= s'.log.minted.Keys
    requires forall g <- s.log.minted :: s'.log.minted[g] == s.log.minted[g]
    ensures forall g <- s'.log.chain :: FamilyOk(s', g) && ListedOk(s', g)
  {
    forall g <- s'.log.chain ensures FamilyOk(s', g) && ListedOk(s', g) {
      assert FamilyOk(s, g) && ListedOk(s, g);
      forall i | 0 <= i < |s'.log.chain[g]| ensures PlacedAt(s', s'.log.chain[g][i], g, i) {
        if i < |s.log.chain[g]| {
          assert PlacedAt(s, s.log.chain[g][i], g, i);
        }
      }
    }
  }

  lemma InsertKeepsChain(s: State, r: RequestId, h: Hash, at: Time)
    requires ChainInv(s) && FlightInv(s) && Enabled(s, Insert(r, h, at))
    ensures ChainInv(InsertStep(s, r, h, at))
  {
    var f, s' := s.flight[r].family, InsertStep(s, r, h, at);
    InsertAppends(s, r, h, at);
    InsertKeepsFamilies(s, s', f, h);
    hide FlightInv, Enabled, InsertStep, FamilyOk, ListedOk;
    forall g <- s'.log.minted ensures TokenOk(s', g) { assert g == h || TokenOk(s, g); }
  }

  lemma InsertKeepsRows(s: State, r: RequestId, h: Hash, at: Time)
    requires ChainInv(s) && RowInv(s) && FlightInv(s) && Enabled(s, Insert(r, h, at))
    ensures RowInv(InsertStep(s, r, h, at))
  {
    var s' := InsertStep(s, r, h, at);
    assert MintingOk(s, r) && FamilyOk(s, s.flight[r].family);
    hide FlightInv, ChainInv;
    forall g <- s'.log.minted ensures Kept(s', g) { assert g == h || Kept(s, g); }
    forall g <- s'.rows ensures RowOk(s', g) { assert g == h || RowOk(s, g); }
  }

  lemma InsertKeepsSpends(s: State, r: RequestId, h: Hash, at: Time)
    requires ChainInv(s) && SpendInv(s) && FlightInv(s) && Enabled(s, Insert(r, h, at))
    ensures SpendInv(InsertStep(s, r, h, at))
  {
    var s' := InsertStep(s, r, h, at);
    assert MintingOk(s, r) && FamilyOk(s, s.flight[r].family);
    hide FlightInv, ChainInv;
    forall g <- s'.log.minted ensures Spent(s', g) <==> g in s'.log.spentBy {
      assert g != h ==> (Spent(s, g) <==> g in s.log.spentBy);
    }
    forall g <- s'.log.spentBy ensures g in s'.log.minted && SpenderOk(s', g) { assert SpenderOk(s, g); }
  }

  lemma InsertKeepsFlight(s: State, r: RequestId, h: Hash, at: Time)
    requires FlightInv(s) && FailureInv(s) && Enabled(s, Insert(r, h, at))
    ensures FlightInv(InsertStep(s, r, h, at)) && FailureInv(InsertStep(s, r, h, at))
  {
    var s' := InsertStep(s, r, h, at);
    forall q <- s'.flight | s'.flight[q].Minting? ensures MintingOk(s', q) {
      assert MintingOk(s, q) && s.flight[q].family != s.flight[r].family;
    }
    forall q <- s'.flight | s'.flight[q].Failed? ensures FailedOk(s', q) { assert FailedOk(s, q); }
  }

  lemma InsertKeepsInv(s: State, r: RequestId, h: Hash, at: Time)
    requires Inv(s) && Enabled(s, Insert(r, h, at))
    ensures Inv(InsertStep(s, r, h, at))
  {
    hide ChainInv, RowInv, FlightInv, SpendInv, FailureInv, Compromised;
    InsertKeepsChain(s, r, h, at);
    InsertKeepsRows(s, r, h, at);
    InsertKeepsSpends(s, r, h, at);
    InsertKeepsFlight(s, r, h, at);
    HistoryOnlyGrows(s, InsertStep(s, r, h, at));
  }

  // A detected replay is two requests: the spender, and the one whose spend failed.
  lemma DetectionIsReplay(s: State, r: RequestId)
    requires RowInv(s) && SpendInv(s) && FailureInv(s) && Enabled(s, Lookup(r))
    requires s.flight[r].hash in s.rows && s.rows[s.flight[r].hash].usedAt.Some?
    ensures Compromised(s, s.rows[s.flight[r].hash].family)
  {
    var h := s.flight[r].hash;
    assert RowOk(s, h) && FailedOk(s, r) && SpenderOk(s, h);
    assert Replayed(s, s.rows[h].family, s.log.spentBy[h], r);
  }

  lemma LogoutCompromises(s: State, r: RequestId, h: Hash)
    requires RowInv(s) && h in s.rows
    ensures Compromised(LogoutStep(s, r, h), s.rows[h].family)
  {
    assert RowOk(s, h);
    assert LoggedOut(LogoutStep(s, r, h), s.rows[h].family, r);
  }

  predicate QuietAction(s: State, a: Action) {
    match a
    case Begin(_, _, _, _) => false
    case Insert(_, _, _) => false
    case Present(_, h, _) => !Spendable(s.rows, h, s.now)
    case _ => true
  }

  lemma QuietActionsAreQuiet(s: State, a: Action)
    requires Enabled(s, a) && QuietAction(s, a)
    ensures Quiet(s, Step(s, a))
  {
    match a
    case Lookup(r) => assert Quiet(s, LookupStep(s, r));
    case Present(r, h, p) => assert Quiet(s, PresentStep(s, r, h, p));
    case LogoutLookup(r, h) => assert Quiet(s, LogoutStep(s, r, h));
    case Revoke(r) =>
    case Sweep =>
    case Tick(to) =>
    case Abort(r) =>
  }

  lemma QuietFlights(s: State, a: Action, r: RequestId)
    requires Enabled(s, a) && QuietAction(s, a) && r in Step(s, a).flight
    ensures var s' := Step(s, a);
            || (r in s.flight && s'.flight[r] == s.flight[r])
            || (a.Present? && r == a.req && s'.flight[r] == Failed(a.hash))
            || (a.Lookup? && r == a.req && s.flight[r].hash in s.rows && s.rows[s.flight[r].hash].usedAt.Some?
                && s'.flight[r] == Revoking(s.rows[s.flight[r].hash].family))
            || (a.LogoutLookup? && r == a.req && a.hash in s.rows && s'.flight[r] == Revoking(s.rows[a.hash].family))
  {
    match a
    case Lookup(_) =>
    case Present(_, _, _) =>
    case LogoutLookup(_, _) =>
    case _ =>
  }

  lemma PresentedNow(s: State, a: Action)
    requires Enabled(s, a) && a.Present?
    ensures a.req !in s.presented && a.req in Step(s, a).presented && Step(s, a).presented[a.req] == ToRefresh(a.hash)
  {
  }

  lemma QuietKeepsFailures(s: State, a: Action)
    requires FailureInv(s) && SpendInv(s) && Enabled(s, a) && QuietAction(s, a)
    ensures FailureInv(Step(s, a))
  {
    var s' := Step(s, a);
    QuietActionsAreQuiet(s, a);
    forall r <- s'.flight | s'.flight[r].Failed? ensures FailedOk(s', r) {
      QuietFlights(s, a, r);
      hide Step, QuietAction;
      if r in s.flight && s'.flight[r] == s.flight[r] {
        assert FailedOk(s, r);
      } else {
        PresentedNow(s, a);
        assert a.hash in s.log.spentBy ==> SpenderOk(s, a.hash);
      }
    }
  }

  lemma QuietRevokes(s: State, a: Action, h: Hash)
    requires Enabled(s, a) && QuietAction(s, a) && h in Step(s, a).rows && h in s.rows
    requires Step(s, a).rows[h].revokedAt.Some? && s.rows[h].revokedAt.None?
    ensures a.Revoke? && s.rows[h].family == s.flight[a.req].family
  {
  }

  // Whatever is newly revoked, or newly about to be, belongs to a compromised family.
  lemma QuietKeepsRevokes(s: State, a: Action)
    requires RevokeInv(s) && RowInv(s) && SpendInv(s) && FailureInv(s) && Enabled(s, a) && QuietAction(s, a)
    ensures RevokeInv(Step(s, a))
  {
    var s' := Step(s, a);
    HistoryOnlyGrows(s, s');
    if a.Lookup? && s.flight[a.req].hash in s.rows && s.rows[s.flight[a.req].hash].usedAt.Some? {
      DetectionIsReplay(s, a.req);
    }
    if a.LogoutLookup? && a.hash in s.rows {
      LogoutCompromises(s, a.req, a.hash);
    }
    QuietActionsAreQuiet(s, a);
    hide RowInv, SpendInv, FailureInv, Compromised;
    forall r <- s'.flight | s'.flight[r].Revoking? ensures Compromised(s', s'.flight[r].family) {
      QuietFlights(s, a, r);
      hide Step;
    }
    forall h <- s'.rows | s'.rows[h].revokedAt.Some? ensures Compromised(s', s'.rows[h].family) {
      if s.rows[h].revokedAt.None? {
        QuietRevokes(s, a, h);
      }
      hide Step;
    }
  }

  lemma QuietKeepsInv(s: State, a: Action)
    requires Inv(s) && Enabled(s, a) && QuietAction(s, a)
    ensures Inv(Step(s, a))
  {
    hide ChainInv, RowInv, FlightInv, SpendInv, FailureInv, RevokeInv, Quiet, Step, Enabled, QuietAction;

    QuietActionsAreQuiet(s, a);
    QuietKeepsTables(s, Step(s, a));
    QuietKeepsFlights(s, Step(s, a));
    QuietKeepsFailures(s, a);
    QuietKeepsRevokes(s, a);
  }

  lemma SpendKeepsRevokes(s: State, r: RequestId, h: Hash, p: Platform)
    requires RevokeInv(s) && NewRequest(s, r) && Spendable(s.rows, h, s.now)
    ensures RevokeInv(PresentStep(s, r, h, p))
  {
    hide Compromised;
    HistoryOnlyGrows(s, PresentStep(s, r, h, p));
  }

  lemma SpendKeepsInv(s: State, r: RequestId, h: Hash, p: Platform)
    requires Inv(s) && NewRequest(s, r) && Spendable(s.rows, h, s.now)
    ensures Inv(PresentStep(s, r, h, p))
  {
    hide ChainInv, RowInv, FlightInv, SpendInv, FailureInv, RevokeInv;
    SpendKeepsChain(s, r, h, p);
    SpendKeepsRows(s, r, h, p);
    SpendKeepsFlight(s, r, h, p);
    SpendKeepsSpenders(s, r, h, p);
    SpendKeepsRevokes(s, r, h, p);
  }

  lemma BeginKeepsChain(s: State, r: RequestId, u: UserId, f: FamilyId, p: Platform)
    requires ChainInv(s) && Enabled(s, Begin(r, u, f, p))
    ensures ChainInv(Step(s, Begin(r, u, f, p)))
    ensures forall h <- s.log.minted :: s.log.minted[h].family != f
  {
    var s' := Step(s, Begin(r, u, f, p));
    forall g <- s'.log.chain ensures FamilyOk(s', g) && ListedOk(s', g) {
      assert g == f || (FamilyOk(s, g) && ListedOk(s, g));
      forall i | 0 <= i < |s'.log.chain[g]| ensures PlacedAt(s', s'.log.chain[g][i], g, i) {
        assert PlacedAt(s, s.log.chain[g][i], g, i);
      }
    }
    assert forall h <- s.log.minted :: TokenOk(s, h);
    forall h <- s'.log.minted ensures TokenOk(s', h) { assert TokenOk(s, h); }
  }

  lemma BeginKeepsSpends(s: State, r: RequestId, u: UserId, f: FamilyId, p: Platform)
    requires SpendInv(s) && Enabled(s, Begin(r, u, f, p))
    requires forall h <- s.log.minted :: s.log.minted[h].family != f
    ensures SpendInv(Step(s, Begin(r, u, f, p)))
  {
    var s' := Step(s, Begin(r, u, f, p));
    forall h <- s'.log.minted ensures Spent(s', h) <==> h in s'.log.spentBy { SpentHaveSpenders(s, h); }
    forall h <- s'.log.spentBy ensures h in s'.log.minted && SpenderOk(s', h) { assert SpenderOk(s, h); }
  }

  lemma BeginKeepsRows(s: State, r: RequestId, u: UserId, f: FamilyId, p: Platform)
    requires RowInv(s) && Enabled(s, Begin(r, u, f, p))
    requires forall h <- s.log.minted :: s.log.minted[h].family != f
    ensures RowInv(Step(s, Begin(r, u, f, p)))
  {
    var s' := Step(s, Begin(r, u, f, p));
    forall h <- s'.log.minted ensures Kept(s', h) { assert Kept(s, h); }
    forall h <- s'.rows ensures RowOk(s', h) { assert RowOk(s, h); }
  }

  lemma BeginKeepsHistory(s: State, r: RequestId, u: UserId, f: FamilyId, p: Platform)
    requires ChainInv(s) && RowInv(s) && SpendInv(s) && Enabled(s, Begin(r, u, f, p))
    ensures var s' := Step(s, Begin(r, u, f, p)); ChainInv(s') && RowInv(s') && SpendInv(s')
  {
    hide *;
    BeginKeepsChain(s, r, u, f, p);
    BeginKeepsRows(s, r, u, f, p);
    BeginKeepsSpends(s, r, u, f, p);
  }

  lemma BeginKeepsFlight(s: State, r: RequestId, u: UserId, f: FamilyId, p: Platform)
    requires ChainInv(s) && FlightInv(s) && FailureInv(s) && Enabled(s, Begin(r, u, f, p))
    ensures var s' := Step(s, Begin(r, u, f, p)); FlightInv(s') && FailureInv(s')
  {
    hide FamilyOk, ListedOk, TokenOk;
    var s' := Step(s, Begin(r, u, f, p));
    forall q <- s'.flight | s'.flight[q].Minting?
      ensures MintingOk(s', q) && (s'.flight[q].family == f ==> q == r)
    {
      assert q == r || MintingOk(s, q);
    }
    forall q <- s'.flight | s'.flight[q].Failed? ensures FailedOk(s', q) { assert FailedOk(s, q); }
  }

  lemma BeginKeepsInv(s: State, r: RequestId, u: UserId, f: FamilyId, p: Platform)
    requires Inv(s) && Enabled(s, Begin(r, u, f, p))
    ensures Inv(Step(s, Begin(r, u, f, p)))
  {
    hide ChainInv, RowInv, SpendInv, FlightInv, FailureInv, Compromised;
    BeginKeepsHistory(s, r, u, f, p);
    BeginKeepsFlight(s, r, u, f, p);
    HistoryOnlyGrows(s, Step(s, Begin(r, u, f, p)));
  }

  lemma StepKeepsInv(s: State, a: Action)
    requires Inv(s) && Enabled(s, a)
    ensures Inv(Step(s, a))
  {
    hide Inv;
    if QuietAction(s, a) {
      QuietKeepsInv(s, a);
    } else if a.Begin? {
      BeginKeepsInv(s, a.req, a.user, a.family, a.platform);
    } else if a.Insert? {
      InsertKeepsInv(s, a.req, a.hash, a.mintedAt);
    } else {
      SpendKeepsInv(s, a.req, a.hash, a.platform);
    }
  }

  lemma {:induction false} ReachableInv(s: State, run: seq<Action>)
    requires Inv(s) && Runs(s, run)
    ensures Inv(Exec(s, run))
    decreases |run|
  {
    hide Inv;
    if run != [] {
      StepKeepsInv(s, run[0]);
      ReachableInv(Step(s, run[0]), run[1..]);
    }
  }
}
