// E-mail verification links: a table of used and unused rows that behaves, request by request, like a
// board with at most one current link per unverified user.

module VerificationLinks {
  import opened Core
  import opened Text
  import opened AccountTables
  import opened Accounts
  import Rotation

  // ----- Whole requests -----

  // Register and ResendEmailVerification run to the end before another request starts; `link` is None
  // when the INSERT of the new link failed.  Everything else keeps its own interleaving.
  datatype Request =
    | Register(req: RequestId, id: UserId, email: string, password: string, link: Option<Hash>)
    | Resend(req: RequestId, email: string, link: Option<Hash>)
    | Other(action: Action)

  predicate Interleaves(a: Action) {
    !a.Register? && !a.Mail? && !a.ResendRead? && !a.Retire?
  }

  predicate NewLink(s: State, link: Option<Hash>) {
    link.Some? ==> link.value !in s.history.mailed
  }

  ghost predicate CanHandle(s: State, q: Request) {
    match q
    case Register(r, id, email, password, link) =>
      Enabled(s, Accounts.Register(r, id, email, password)) && NewLink(s, link)
    case Resend(r, email, link) => Enabled(s, ResendRead(r, email)) && NewLink(s, link)
    case Other(a) => Interleaves(a) && Enabled(s, a)
  }

  // sendEmailVerification, the last thing a request does.
  ghost function Send(s: State, r: RequestId, link: Option<Hash>): State
    requires r in s.flight && s.flight[r].Mailing?
  {
    if link.Some? then MailStep(s, r, link.value, s.sessions.now) else Done(s, r)
  }

  ghost function RegisterAll(s: State, r: RequestId, id: UserId, email: string, password: string,
                             link: Option<Hash>): State {
    var s1 := RegisterStep(s, r, id, email, password);
    if r in s1.flight && s1.flight[r].Mailing? then Send(s1, r, link) else s1
  }

  ghost function ResendAll(s: State, r: RequestId, email: string, link: Option<Hash>): State {
    var s1 := ResendReadStep(s, r, email);
    if r in s1.flight && s1.flight[r].Retiring? then Send(RetireStep(s1, r), r, link) else s1
  }

  ghost function Handle(s: State, q: Request): State
    requires CanHandle(s, q)
  {
    match q
    case Register(r, id, email, password, link) => RegisterAll(s, r, id, email, password, link)
    case Resend(r, email, link) => ResendAll(s, r, email, link)
    case Other(a) => Step(s, a)
  }

  // ----- The board -----

  datatype Current = Current(hash: Hash, expiresAt: Time)

  type Board = map<UserId, Current>

  // The one link that would be accepted.
  ghost predicate Redeemable(b: Board, h: Hash, now: Time) {
    exists u :: u in b && b[u].hash == h && now < b[u].expiresAt
  }

  function Post(b: Board, u: UserId, link: Option<Hash>, expiresAt: Time): Board {
    if link.Some? then b[u := Current(link.value, expiresAt)] else b - {u}
  }

  ghost function TakeDown(b: Board, h: Hash): Board {
    map u | u in b && b[u].hash != h :: b[u]
  }

  // What each request does to the board.
  ghost function HandleOnBoard(b: Board, s: State, q: Request): Board {
    match q
    case Register(r, id, email, _, link) =>
      if UserByEmail(s.tables.users, NormalizeEmail(email)).Some? then b
      else Post(b, id, link, s.sessions.now + s.linkTtl)
    case Resend(r, email, link) =>
      var u := UserByEmail(s.tables.users, NormalizeEmail(email));
      if u.None? || Verified(s.tables.users[u.value]) then b
      else Post(b, u.value, link, s.sessions.now + s.linkTtl)
    case Other(a) =>
      if a.Verify? && Redeemable(b, a.hash, s.sessions.now) then TakeDown(b, a.hash) else b
  }

  // ----- The tables refine the board -----

  predicate Unused(links: Links, h: Hash) {
    h in links && links[h].usedAt.None?
  }

  // Every unused row is its user's posted link.
  predicate Posted(b: Board, links: Links, h: Hash)
    requires h in links
  {
    links[h].usedAt.None? ==> links[h].user in b && b[links[h].user] == Current(h, links[h].expiresAt)
  }

  // A posted link belongs to an unverified user and, until it expires, to an unused row.
  predicate Backed(b: Board, t: Tables, mailed: map<Hash, UserId>, now: Time, u: UserId)
    requires u in b
  {
    && u in t.users && !Verified(t.users[u])
    && b[u].hash in mailed && mailed[b[u].hash] == u
    && (now < b[u].expiresAt ==> Unused(t.links, b[u].hash) && t.links[b[u].hash].expiresAt == b[u].expiresAt)
  }

  ghost predicate Refines(s: State, b: Board) {
    && (forall h <- s.tables.links :: Posted(b, s.tables.links, h))
    && (forall u <- b :: Backed(b, s.tables, s.history.mailed, s.sessions.now, u))
    && LinksInv(s.tables.users, s.tables.links, s.history)
  }

  // VerifyEmail succeeds exactly on a posted link that has not expired.
  lemma VerifyAgreesWithBoard(s: State, b: Board, h: Hash)
    requires Refines(s, b)
    ensures Consumable(s.tables.links, h, s.sessions.now) <==> Redeemable(b, h, s.sessions.now)
  {
    if u :| u in b && b[u].hash == h && s.sessions.now < b[u].expiresAt {
      assert Backed(b, s.tables, s.history.mailed, s.sessions.now, u);
    }
    if Consumable(s.tables.links, h, s.sessions.now) {
      assert Posted(b, s.tables.links, h);
    }
  }

  // At most one unused link per user, and none for a verified one.
  lemma AtMostOneUnusedLink(s: State, b: Board, g: Hash, h: Hash)
    requires Refines(s, b) && Unused(s.tables.links, g)
    ensures !IsVerified(s.tables.users, s.tables.links[g].user)
    ensures Unused(s.tables.links, h) && s.tables.links[h].user == s.tables.links[g].user ==> g == h
  {
    assert Posted(b, s.tables.links, g);
    assert Unused(s.tables.links, h) ==> Posted(b, s.tables.links, h);
    assert Backed(b, s.tables, s.history.mailed, s.sessions.now, s.tables.links[g].user);
  }

  // Retiring a user's links and posting a new one, or none.
  lemma SendRefines(s: State, b: Board, r: RequestId, link: Option<Hash>)
    requires Refines(s, b) && r in s.flight && s.flight[r].Mailing? && NewLink(s, link)
    requires s.flight[r].user in s.tables.users && !Verified(s.tables.users[s.flight[r].user])
    requires forall h <- s.tables.links :: s.tables.links[h].user == s.flight[r].user ==> s.tables.links[h].usedAt.Some?
    ensures Refines(Send(s, r, link), Post(b, s.flight[r].user, link, s.sessions.now + s.linkTtl))
  {
    var u := s.flight[r].user;
    var s', b' := Send(s, r, link), Post(b, u, link, s.sessions.now + s.linkTtl);
    forall h <- s'.tables.links ensures Posted(b', s'.tables.links, h) {
      assert h in s.tables.links ==> Posted(b, s.tables.links, h);
    }
    forall v <- b' ensures Backed(b', s'.tables, s'.history.mailed, s'.sessions.now, v) {
      assert v in b ==> Backed(b, s.tables, s.history.mailed, s.sessions.now, v);
    }
  }

  lemma NewUserRefines(s: State, b: Board, r: RequestId, id: UserId, email: string, password: string)
    requires Refines(s, b) && id !in s.tables.users
    requires UserByEmail(s.tables.users, NormalizeEmail(email)).None?
    ensures var s1 := RegisterStep(s, r, id, email, password);
            && Refines(s1, b) && s1.flight == s.flight[r := Mailing(id)]
            && s1.tables.links == s.tables.links && s1.history == s.history
  {
    hide UserByEmail, NormalizeEmail;
    var s1 := RegisterStep(s, r, id, email, password);
    forall h <- s1.tables.links ensures Posted(b, s1.tables.links, h) { assert Posted(b, s.tables.links, h); }
    forall u <- b ensures Backed(b, s1.tables, s1.history.mailed, s1.sessions.now, u) {
      assert Backed(b, s.tables, s.history.mailed, s.sessions.now, u);
    }
  }

  lemma RefinesHasLinks(s: State, b: Board)
    requires Refines(s, b)
    ensures LinksInv(s.tables.users, s.tables.links, s.history)
  {
  }

  lemma RegisterRefines(s: State, b: Board, r: RequestId, id: UserId, email: string, password: string,
                        link: Option<Hash>)
    requires Refines(s, b) && id !in s.tables.users && Idle(s, r) && NewLink(s, link)
    ensures Refines(RegisterAll(s, r, id, email, password, link),
                    HandleOnBoard(b, s, Request.Register(r, id, email, password, link)))
  {
    hide UserByEmail, NormalizeEmail, Refines;
    if UserByEmail(s.tables.users, NormalizeEmail(email)).None? {
      NewUserRefines(s, b, r, id, email, password);
      RefinesHasLinks(s, b);
      SendRefines(RegisterStep(s, r, id, email, password), b, r, link);
    }
  }

  lemma RetireRefines(s: State, b: Board, r: RequestId)
    requires Refines(s, b) && r in s.flight && s.flight[r].Retiring?
    ensures Refines(RetireStep(s, r), b - {s.flight[r].user})
    ensures var links := RetireStep(s, r).tables.links;
            forall h <- links :: links[h].user == s.flight[r].user ==> links[h].usedAt.Some?
  {
    var s', b' := RetireStep(s, r), b - {s.flight[r].user};
    forall h <- s'.tables.links ensures Posted(b', s'.tables.links, h) {
      assert Posted(b, s.tables.links, h);
    }
    forall u <- b' ensures Backed(b', s'.tables, s'.history.mailed, s'.sessions.now, u) {
      assert Backed(b, s.tables, s.history.mailed, s.sessions.now, u);
    }
  }

  lemma FlightIsIrrelevant(s: State, s': State, b: Board)
    requires Refines(s, b) && s' == s.(flight := s'.flight)
    ensures Refines(s', b)
  {
  }

  lemma ResendRefines(s: State, b: Board, r: RequestId, email: string, link: Option<Hash>)
    requires Refines(s, b) && Idle(s, r) && NewLink(s, link)
    ensures Refines(ResendAll(s, r, email, link), HandleOnBoard(b, s, Resend(r, email, link)))
  {
    hide NormalizeEmail, Refines;
    var found := UserByEmail(s.tables.users, NormalizeEmail(email));
    hide UserByEmail;
    if found.Some? && !Verified(s.tables.users[found.value]) {
      var u := found.value;
      var s1 := ResendReadStep(s, r, email);
      assert s1 == s.(flight := s.flight[r := Retiring(u)]);
      assert Refines(s1, b) by { FlightIsIrrelevant(s, s1, b); }
      RetireRefines(s1, b, r);
      var s2 := RetireStep(s1, r);
      assert s2.flight[r] == Mailing(u) && s2.tables.users == s.tables.users && s2.history == s.history;
      SendRefines(s2, b - {u}, r, link);
      assert Post(b - {u}, u, link, s.sessions.now + s.linkTtl) == Post(b, u, link, s.sessions.now + s.linkTtl);
    }
  }

  lemma VerifyRefines(s: State, b: Board, h: Hash)
    requires Refines(s, b)
    ensures Refines(VerifyStep(s, h), HandleOnBoard(b, s, Other(Verify(h))))
  {
    VerifyAgreesWithBoard(s, b, h);
    hide Redeemable;
    if Consumable(s.tables.links, h, s.sessions.now) {
      var s', b' := VerifyStep(s, h), TakeDown(b, h);
      assert Posted(b, s.tables.links, h);
      forall g <- s'.tables.links ensures Posted(b', s'.tables.links, g) {
        assert Posted(b, s.tables.links, g);
      }
      forall u <- b' ensures Backed(b', s'.tables, s'.history.mailed, s'.sessions.now, u) {
        assert Backed(b, s.tables, s.history.mailed, s.sessions.now, u);
      }
    }
  }

  lemma SessionClock(sessions: Rotation.State, a: Rotation.Action)
    requires Rotation.Enabled(sessions, a)
    ensures sessions.now <= Rotation.Step(sessions, a).now
  {
  }

  lemma OtherMoves(s: State, a: Action)
    requires Enabled(s, a) && Interleaves(a) && !a.Verify?
    ensures var s' := Step(s, a);
            && s.sessions.now <= s'.sessions.now
            && s'.history.mailed == s.history.mailed
            && (forall h <- s'.tables.links :: h in s.tables.links && s'.tables.links[h] == s.tables.links[h])
            && (forall h <- s.tables.links :: s'.sessions.now < s.tables.links[h].expiresAt ==> h in s'.tables.links)
            && (forall u <- s.tables.users :: u in s'.tables.users && s'.tables.users[u] == s.tables.users[u])
  {
    hide UserByEmail, IdentityBySubject, NormalizeEmail;
    if a.Session? {
      SessionClock(s.sessions, a.action);
      hide Rotation.Step, Rotation.Enabled;
    }
  }

  lemma StillPosted(s: State, s': State, b: Board)
    requires Refines(s, b)
    requires forall h <- s'.tables.links :: h in s.tables.links && s'.tables.links[h] == s.tables.links[h]
    ensures forall h <- s'.tables.links :: Posted(b, s'.tables.links, h)
  {
    forall h <- s'.tables.links ensures Posted(b, s'.tables.links, h) {
      assert Posted(b, s.tables.links, h);
    }
  }

  lemma StillBacked(s: State, s': State, b: Board)
    requires Refines(s, b) && s.sessions.now <= s'.sessions.now && s'.history.mailed == s.history.mailed
    requires forall h <- s'.tables.links :: h in s.tables.links && s'.tables.links[h] == s.tables.links[h]
    requires forall h <- s.tables.links :: s'.sessions.now < s.tables.links[h].expiresAt ==> h in s'.tables.links
    requires forall u <- s.tables.users :: u in s'.tables.users && s'.tables.users[u] == s.tables.users[u]
    ensures forall u <- b :: Backed(b, s'.tables, s'.history.mailed, s'.sessions.now, u)
  {
    forall u <- b ensures Backed(b, s'.tables, s'.history.mailed, s'.sessions.now, u) {
      assert Backed(b, s.tables, s.history.mailed, s.sessions.now, u);
    }
  }

  // The other requests add verified users, sweep expired links or let time pass.
  lemma LinksStillMailed(s: State, s': State, b: Board)
    requires Refines(s, b) && s'.history.mailed == s.history.mailed
    requires forall h <- s'.tables.links :: h in s.tables.links && s'.tables.links[h] == s.tables.links[h]
    requires forall u <- s.tables.users :: u in s'.tables.users
    ensures LinksInv(s'.tables.users, s'.tables.links, s'.history)
  {
  }

  lemma OtherRefines(s: State, b: Board, a: Action)
    requires Refines(s, b) && Enabled(s, a) && Interleaves(a) && !a.Verify?
    ensures Refines(Step(s, a), b)
  {
    hide Step, Enabled, Interleaves, LinksInv;
    OtherMoves(s, a);
    var s' := Step(s, a);
    LinksStillMailed(s, s', b);
    StillPosted(s, s', b);
    StillBacked(s, s', b);
  }

  ghost predicate Serves(s: State, requests: seq<Request>)
    decreases |requests|
  {
    requests == [] || (CanHandle(s, requests[0]) && Serves(Handle(s, requests[0]), requests[1..]))
  }

  ghost function After(s: State, requests: seq<Request>): State
    requires Serves(s, requests)
    decreases |requests|
  {
    if requests == [] then s else After(Handle(s, requests[0]), requests[1..])
  }

  ghost function BoardAfter(b: Board, s: State, requests: seq<Request>): Board
    requires Serves(s, requests)
    decreases |requests|
  {
    if requests == [] then b else BoardAfter(HandleOnBoard(b, s, requests[0]), Handle(s, requests[0]), requests[1..])
  }

  lemma HandleRefines(s: State, b: Board, q: Request)
    requires Refines(s, b) && CanHandle(s, q)
    ensures Refines(Handle(s, q), HandleOnBoard(b, s, q))
  {
    hide Refines;
    match q
    case Register(r, id, email, password, link) => RegisterRefines(s, b, r, id, email, password, link);
    case Resend(r, email, link) => ResendRefines(s, b, r, email, link);
    case Other(a) =>
      if a.Verify? {
        VerifyRefines(s, b, a.hash);
      } else {
        OtherRefines(s, b, a);
      }
  }

  lemma {:induction false} ServingRefines(s: State, b: Board, requests: seq<Request>)
    requires Refines(s, b) && Serves(s, requests)
    ensures Refines(After(s, requests), BoardAfter(b, s, requests))
    decreases |requests|
  {
    if requests != [] {
      HandleRefines(s, b, requests[0]);
      hide Refines, Handle, HandleOnBoard, CanHandle;
      ServingRefines(Handle(s, requests[0]), HandleOnBoard(b, s, requests[0]), requests[1..]);
    }
  }

  // Over every run of whole requests, VerifyEmail accepts exactly the link the board has posted: the
  // last one sent to a user who is still unverified, until it expires.
  lemma OneRedeemableLink(config: Rotation.Config, linkTtl: Time, now: Time, requests: seq<Request>, h: Hash)
    requires Serves(Init(config, linkTtl, now), requests)
    ensures var s := After(Init(config, linkTtl, now), requests);
            var b := BoardAfter(map[], Init(config, linkTtl, now), requests);
            && (Consumable(s.tables.links, h, s.sessions.now) <==> Redeemable(b, h, s.sessions.now))
            && (forall g | Unused(s.tables.links, g) ::
                  && s.tables.links[g].user in b && b[s.tables.links[g].user].hash == g
                  && !IsVerified(s.tables.users, s.tables.links[g].user))
  {
    var s0 := Init(config, linkTtl, now);
    ServingRefines(s0, map[], requests);
    var s, b := After(s0, requests), BoardAfter(map[], s0, requests);
    VerifyAgreesWithBoard(s, b, h);
    forall g | Unused(s.tables.links, g)
      ensures s.tables.links[g].user in b && b[s.tables.links[g].user].hash == g
      ensures !IsVerified(s.tables.users, s.tables.links[g].user)
    {
      assert Posted(b, s.tables.links, g);
      AtMostOneUnusedLink(s, b, g, g);
    }
    hide Refines, Redeemable, After, BoardAfter, Init, Serves;
  }

  // ----- Whole requests are runs of the interleaved machine -----

  // The statements of a Resend, one after the other.
  ghost function ResendRun(s: State, r: RequestId, email: string, link: Option<Hash>): seq<Action> {
    var s1 := ResendReadStep(s, r, email);
    if r in s1.flight && s1.flight[r].Retiring? then
      [ResendRead(r, email), Retire(r), if link.Some? then Mail(r, link.value, s.sessions.now) else Abort(r)]
    else [ResendRead(r, email)]
  }

  lemma ResendIsARun(s: State, r: RequestId, email: string, link: Option<Hash>)
    requires CanHandle(s, Resend(r, email, link))
    ensures Runs(s, ResendRun(s, r, email, link))
    ensures Exec(s, ResendRun(s, r, email, link)) == ResendAll(s, r, email, link)
  {
    hide UserByEmail, NormalizeEmail;
    var run := ResendRun(s, r, email, link);
    var s1 := Step(s, run[0]);
    assert s1 == ResendReadStep(s, r, email);
    if |run| == 1 {
      assert run[1..] == [];
    } else {
      assert s1.history == s.history && s1.sessions == s.sessions;
      var s2 := Step(s1, Retire(r));
      assert s2 == RetireStep(s1, r) && s2.flight[r].Mailing? && s2.history == s.history && s2.sessions == s.sessions;
      assert Enabled(s2, run[2]) && Step(s2, run[2]) == Send(s2, r, link);
      hide Step, Enabled, ResendReadStep, RetireStep;
      assert run[1..][1..] == [run[2]] && [run[2]][1..] == [];
      var s3 := Step(s2, run[2]);
      assert Runs(s3, []) && Exec(s3, []) == s3;
      assert Runs(s2, [run[2]]) && Exec(s2, [run[2]]) == s3;
    }
  }

  // ----- At most once, under every interleaving -----

  predicate SpentLink(s: State, h: Hash) {
    h in s.history.mailed && !Unused(s.tables.links, h)
  }

  lemma SpentStaysSpent(s: State, a: Action, h: Hash)
    requires Enabled(s, a) && SpentLink(s, h)
    ensures SpentLink(Step(s, a), h)
  {
    hide UserByEmail, IdentityBySubject, NormalizeEmail, Start;
  }

  lemma {:induction false} SpentStaysSpentForever(s: State, run: seq<Action>, h: Hash)
    requires Runs(s, run) && SpentLink(s, h)
    ensures SpentLink(Exec(s, run), h)
    decreases |run|
  {
    if run != [] {
      SpentStaysSpent(s, run[0], h);
      hide Step, Enabled;
      SpentStaysSpentForever(Step(s, run[0]), run[1..], h);
    }
  }

  // A link that was accepted once is refused in every continuation.
  lemma LinkWorksAtMostOnce(s: State, h: Hash, run: seq<Action>)
    requires Inv(s) && Consumable(s.tables.links, h, s.sessions.now)
    requires Runs(VerifyStep(s, h), run)
    ensures IsVerified(VerifyStep(s, h).tables.users, s.tables.links[h].user)
    ensures !Consumable(Exec(VerifyStep(s, h), run).tables.links, h, Exec(VerifyStep(s, h), run).sessions.now)
  {
    hide UsersInv, IdentitiesInv, FlightInv, ProvenanceInv, SessionsInv, Rotation.Inv;
    assert SpentLink(VerifyStep(s, h), h);
    SpentStaysSpentForever(VerifyStep(s, h), run, h);
    hide Step;
  }

  function OverlappingResends(email: string, q: RequestId, r: RequestId, g: Hash, h: Hash, now: Time): seq<Action> {
    [ResendRead(q, email), ResendRead(r, email)] + ([Retire(q), Retire(r)] + [Mail(q, g, now), Mail(r, h, now)])
  }

  lemma BothRead(s: State, u: UserId, email: string, q: RequestId, r: RequestId)
    requires UserByEmail(s.tables.users, NormalizeEmail(email)) == Some(u) && !Verified(s.tables.users[u])
    requires q != r && Idle(s, q) && Idle(s, r)
    ensures Enabled(s, ResendRead(q, email)) && Enabled(Step(s, ResendRead(q, email)), ResendRead(r, email))
    ensures Step(Step(s, ResendRead(q, email)), ResendRead(r, email))
            == s.(flight := s.flight[q := Retiring(u)][r := Retiring(u)])
  {
    hide UserByEmail, NormalizeEmail;
  }

  lemma BothRetire(s: State, u: UserId, q: RequestId, r: RequestId)
    requires q != r && q in s.flight && r in s.flight && s.flight[q] == Retiring(u) && s.flight[r] == Retiring(u)
    ensures Enabled(s, Retire(q)) && Enabled(Step(s, Retire(q)), Retire(r))
    ensures var s' := Step(Step(s, Retire(q)), Retire(r));
            && s'.flight == s.flight[q := Mailing(u)][r := Mailing(u)]
            && s'.history == s.history && s'.sessions == s.sessions && s'.linkTtl == s.linkTtl
  {
    assert Step(s, Retire(q)) == RetireStep(s, q);
    assert Step(RetireStep(s, q), Retire(r)) == RetireStep(RetireStep(s, q), r);
    hide Step, Invalidate;
  }

  lemma BothMail(s: State, u: UserId, q: RequestId, r: RequestId, g: Hash, h: Hash)
    requires q != r && q in s.flight && r in s.flight && s.flight[q] == Mailing(u) && s.flight[r] == Mailing(u)
    requires g != h && g !in s.history.mailed && h !in s.history.mailed && s.linkTtl > 0
    ensures var now := s.sessions.now;
            && Enabled(s, Mail(q, g, now)) && Enabled(Step(s, Mail(q, g, now)), Mail(r, h, now))
            && var links := Step(Step(s, Mail(q, g, now)), Mail(r, h, now)).tables.links;
            && Consumable(links, g, now) && Consumable(links, h, now) && links[g].user == links[h].user
  {
    var s1 := MailStep(s, q, g, s.sessions.now);
    assert Step(s, Mail(q, g, s.sessions.now)) == s1;
    assert Step(s1, Mail(r, h, s.sessions.now)) == MailStep(s1, r, h, s.sessions.now);
    hide Step;
  }

  // Overlapping resends escape the board: both retire before either sends, and two links work.
  lemma OverlappingResendsLeaveTwoLinks(s: State, email: string, q: RequestId, r: RequestId, g: Hash, h: Hash)
    requires UserByEmail(s.tables.users, NormalizeEmail(email)).Some?
    requires !Verified(s.tables.users[UserByEmail(s.tables.users, NormalizeEmail(email)).value])
    requires q != r && Idle(s, q) && Idle(s, r)
    requires g != h && g !in s.history.mailed && h !in s.history.mailed && s.linkTtl > 0
    ensures var run := OverlappingResends(email, q, r, g, h, s.sessions.now);
            && Runs(s, run)
            && Consumable(Exec(s, run).tables.links, g, s.sessions.now)
            && Consumable(Exec(s, run).tables.links, h, s.sessions.now)
            && Exec(s, run).tables.links[g].user == Exec(s, run).tables.links[h].user
  {
    var now := s.sessions.now;
    var u := UserByEmail(s.tables.users, NormalizeEmail(email)).value;
    hide UserByEmail, NormalizeEmail, Step, Enabled;
    BothRead(s, u, email, q, r);
    var s2 := Step(Step(s, ResendRead(q, email)), ResendRead(r, email));
    BothRetire(s2, u, q, r);
    var s4 := Step(Step(s2, Retire(q)), Retire(r));
    BothMail(s4, u, q, r, g, h);
    var s6 := Step(Step(s4, Mail(q, g, now)), Mail(r, h, now));
    var mails := [Mail(q, g, now), Mail(r, h, now)];
    TwoSteps(s, ResendRead(q, email), ResendRead(r, email));
    TwoSteps(s2, Retire(q), Retire(r));
    TwoSteps(s4, Mail(q, g, now), Mail(r, h, now));
    hide Consumable, Runs, Exec;
    Join(s2, [Retire(q), Retire(r)], mails);
    Join(s, [ResendRead(q, email), ResendRead(r, email)], [Retire(q), Retire(r)] + mails);
  }

  ghost predicate OneLinkFor(s: State, u: UserId) {
    forall g, h | Unused(s.tables.links, g) && Unused(s.tables.links, h) ::
      s.tables.links[g].user == u && s.tables.links[h].user == u ==> g == h
  }

  // What sending would have to check again: it keeps its user at one unused link exactly when none is
  // left at that moment.
  lemma MailKeepsOneLinkExactlyWhen(s: State, r: RequestId, h: Hash, at: Time)
    requires Enabled(s, Mail(r, h, at)) && LinksInv(s.tables.users, s.tables.links, s.history)
    ensures OneLinkFor(Step(s, Mail(r, h, at)), s.flight[r].user)
            <==> forall g | Unused(s.tables.links, g) :: s.tables.links[g].user != s.flight[r].user
  {
    var u, s' := s.flight[r].user, MailStep(s, r, h, at);
    assert h !in s.tables.links && Unused(s'.tables.links, h);
    if g :| Unused(s.tables.links, g) && s.tables.links[g].user == u {
      assert Unused(s'.tables.links, g) && s'.tables.links[g].user == u && g != h;
    } else {
      assert forall g | Unused(s'.tables.links, g) :: g == h || Unused(s.tables.links, g);
    }
  }

  // ----- Sweeping links changes no answer -----

  ghost predicate Sim(swept: State, full: State) {
    && swept == full.(tables := full.tables.(links := swept.tables.links))
    && (forall h <- swept.tables.links :: h in full.tables.links && swept.tables.links[h] == full.tables.links[h])
    && (forall h <- full.tables.links :: h in swept.tables.links || full.tables.links[h].expiresAt <= full.sessions.now)
  }

  lemma SameEnabled(swept: State, full: State, a: Action)
    requires Sim(swept, full) && Enabled(swept, a)
    ensures Enabled(full, a)
  {
  }

  lemma SessionKeepsSim(swept: State, full: State, ra: Rotation.Action)
    requires Sim(swept, full) && Enabled(swept, Session(ra)) && Enabled(full, Session(ra))
    ensures Sim(Step(swept, Session(ra)), Step(full, Session(ra)))
  {
    SessionClock(swept.sessions, ra);
    hide Rotation.Step, Rotation.Enabled;
  }

  lemma MailKeepsSim(swept: State, full: State, r: RequestId, h: Hash, at: Time)
    requires Sim(swept, full) && Enabled(swept, Mail(r, h, at)) && Enabled(full, Mail(r, h, at))
    ensures Sim(Step(swept, Mail(r, h, at)), Step(full, Mail(r, h, at)))
  {
  }

  predicate Begins(a: Action) {
    a.Login? || a.SignIn? || a.Create? || a.LinkFound?
  }

  lemma LinksDoNotMatterToBegin(swept: State, full: State, a: Action)
    requires swept == full.(tables := full.tables.(links := swept.tables.links))
    requires Enabled(swept, a) && Enabled(full, a) && Begins(a)
    ensures Step(swept, a).tables.links == swept.tables.links && Step(full, a).tables.links == full.tables.links
    ensures Step(swept, a) == Step(full, a).(tables := Step(full, a).tables.(links := swept.tables.links))
  {
    hide UserByEmail, IdentityBySubject, NormalizeEmail, Start;
  }

  lemma LinksDoNotMatter(swept: State, full: State, a: Action)
    requires swept == full.(tables := full.tables.(links := swept.tables.links))
    requires Enabled(swept, a) && Enabled(full, a)
    requires !a.Session? && !a.Verify? && !a.Retire? && !a.Mail? && !a.SweepLinks?
    ensures Step(swept, a).tables.links == swept.tables.links && Step(full, a).tables.links == full.tables.links
    ensures Step(swept, a) == Step(full, a).(tables := Step(full, a).tables.(links := swept.tables.links))
  {
    hide UserByEmail, IdentityBySubject, NormalizeEmail, Start, CountAuthMethods;
    if Begins(a) {
      LinksDoNotMatterToBegin(swept, full, a);
      hide Step, Enabled;
    }
  }

  lemma StartKeepsClock(s: State, a: Action)
    requires Enabled(s, a) && !a.Session?
    ensures Step(s, a).sessions.now == s.sessions.now
  {
    hide UserByEmail, IdentityBySubject, NormalizeEmail;
  }

  // Steps that neither read nor write a link.
  lemma LinksUntouched(swept: State, full: State, a: Action)
    requires Sim(swept, full) && Enabled(swept, a) && Enabled(full, a)
    requires !a.Session? && !a.Verify? && !a.Retire? && !a.Mail? && !a.SweepLinks?
    ensures Sim(Step(swept, a), Step(full, a))
  {
    hide UserByEmail, IdentityBySubject, NormalizeEmail;
    LinksDoNotMatter(swept, full, a);
    StartKeepsClock(full, a);
    hide Step, Enabled;
  }

  lemma VerifyKeepsSim(swept: State, full: State, h: Hash)
    requires Sim(swept, full)
    ensures Sim(VerifyStep(swept, h), VerifyStep(full, h))
    ensures Consumable(swept.tables.links, h, swept.sessions.now)
            <==> Consumable(full.tables.links, h, full.sessions.now)
  {
  }

  lemma RetireKeepsSim(swept: State, full: State, r: RequestId)
    requires Sim(swept, full) && r in swept.flight && swept.flight[r].Retiring?
    ensures r in full.flight && full.flight[r].Retiring? && Sim(RetireStep(swept, r), RetireStep(full, r))
  {
  }

  lemma StepKeepsSim(swept: State, full: State, a: Action)
    requires Sim(swept, full) && Enabled(swept, a) && !a.SweepLinks?
    ensures Enabled(full, a) && Sim(Step(swept, a), Step(full, a))
    ensures a.Verify? ==> (Consumable(swept.tables.links, a.hash, swept.sessions.now)
                           <==> Consumable(full.tables.links, a.hash, full.sessions.now))
  {
    SameEnabled(swept, full, a);
    if a.Session? {
      SessionKeepsSim(swept, full, a.action);
    } else if a.Verify? {
      VerifyKeepsSim(swept, full, a.hash);
    } else if a.Retire? {
      RetireKeepsSim(swept, full, a.req);
    } else if a.Mail? {
      MailKeepsSim(swept, full, a.req, a.hash, a.mintedAt);
    } else {
      LinksUntouched(swept, full, a);
    }
    hide Step, Enabled, Sim;
  }

  function WithoutSweeps(run: seq<Action>): seq<Action> {
    if run == [] then [] else (if run[0].SweepLinks? then [] else [run[0]]) + WithoutSweeps(run[1..])
  }

  // The answers VerifyEmail gives along a run.
  ghost function Answers(s: State, run: seq<Action>): seq<bool>
    requires Runs(s, run)
    decreases |run|
  {
    if run == [] then []
    else (if run[0].Verify? then [Consumable(s.tables.links, run[0].hash, s.sessions.now)] else [])
         + Answers(Step(s, run[0]), run[1..])
  }

  lemma {:induction false} SweepSimulation(swept: State, full: State, run: seq<Action>)
    requires Sim(swept, full) && Runs(swept, run)
    ensures Runs(full, WithoutSweeps(run))
    ensures Answers(swept, run) == Answers(full, WithoutSweeps(run))
    ensures Sim(Exec(swept, run), Exec(full, WithoutSweeps(run)))
    decreases |run|
  {
    if run != [] {
      var a, rest := run[0], WithoutSweeps(run[1..]);
      if a.SweepLinks? {
        SweepSimulation(Step(swept, a), full, run[1..]);
        assert WithoutSweeps(run) == rest;
      } else {
        hide Step, Enabled, Sim;
        StepKeepsSim(swept, full, a);
        SweepSimulation(Step(swept, a), Step(full, a), run[1..]);
        assert WithoutSweeps(run) == [a] + rest && (([a] + rest)[1..] == rest);
      }
    }
  }

  // DeleteExpiredVerificationTokens anywhere in an interleaved run changes no answer of VerifyEmail
  // and nothing but the rows it deletes.
  lemma LinkSweepIsInvisible(s: State, run: seq<Action>)
    requires Runs(s, run)
    ensures Runs(s, WithoutSweeps(run))
    ensures Answers(s, run) == Answers(s, WithoutSweeps(run))
    ensures Exec(s, run).tables.users == Exec(s, WithoutSweeps(run)).tables.users
    ensures Exec(s, run).tables.identities == Exec(s, WithoutSweeps(run)).tables.identities
    ensures Exec(s, run).sessions == Exec(s, WithoutSweeps(run)).sessions
  {
    SweepSimulation(s, s, run);
  }

  // A sweep drops exactly the links that have expired.
  lemma SweepDropsExactlyTheExpired(s: State)
    ensures var links := Step(s, SweepLinks).tables.links;
            && (forall h :: h in links <==> h in s.tables.links && s.sessions.now < s.tables.links[h].expiresAt)
            && (forall h <- links :: links[h] == s.tables.links[h])
  {
  }
}
