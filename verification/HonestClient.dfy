// A client that holds one session composed with the server: the refresh token goes out in a cookie
// or in a body and comes back the same way (internal/auth/handler.go).

module HonestClient {
  import opened Core
  import opened RefreshTokens
  import opened Rotation
  import RotationSafety

  // ----- The handler -----

  // The token and whether it came from the cookie; a body value wins.
  function PresentedRefreshToken(cookie: Option<string>, body: Option<string>): (string, bool) {
    if body.Some? && body.value != "" then (body.value, false)
    else if cookie.Some? && cookie.value != "" then (cookie.value, true)
    else ("", false)
  }

  // A token in the body is taken before one in the cookie, and an empty one counts for none.
  lemma BodyWins(token: string, other: Option<string>, empty: Option<string>)
    requires token != "" && (empty == None || empty == Some(""))
    ensures PresentedRefreshToken(other, Some(token)) == (token, false)
    ensures PresentedRefreshToken(Some(token), empty) == (token, true)
    ensures forall none | none == None || none == Some("") :: PresentedRefreshToken(none, empty) == ("", false)
  {
  }

  function PlatformOf(header: Option<string>): Platform {
    if header.Some? then header.value else ""
  }

  // The refresh token of an answer is in a cookie or in the body, never in both.
  datatype Response = Response(cookie: Option<string>, body: Option<string>)

  function SessionResponse(token: string, asCookie: bool): Response {
    if asCookie then Response(Some(token), None) else Response(None, Some(token))
  }

  // ----- The client -----

  // A browser sends what its cookie jar holds, and has no use for a token in a body; a native app sends
  // what it stored from the last body.
  datatype Client = Browser(jar: string) | App(stored: string)

  function Held(c: Client): string {
    match c
    case Browser(jar) => jar
    case App(stored) => stored
  }

  function Receive(c: Client, answer: Response): Client {
    match c
    case Browser(jar) => if answer.cookie.Some? then Browser(answer.cookie.value) else c
    case App(stored) => if answer.body.Some? then App(answer.body.value) else c
  }

  // `stray` is a cookie that happens to travel along with an app's body token.
  function Presents(c: Client, stray: Option<string>): (string, bool) {
    match c
    case Browser(jar) => PresentedRefreshToken(Some(jar), None)
    case App(stored) => PresentedRefreshToken(stray, Some(stored))
  }

  // How an answer's transport is chosen: the way the request came in, which is what the handler
  // does, or by the platform header, which is the alternative it argues against.
  datatype Policy = AsAsked | ByHeader

  // A request without its answer, and the header it was sent with.
  datatype Pending = Pending(req: RequestId, asCookie: bool, header: Option<string>)

  datatype World = World(server: State, client: Client, family: FamilyId, waiting: Option<Pending>)

  datatype Event =
    | Send(req: RequestId, header: Option<string>, stray: Option<string>)
    | Deliver(plain: string, mintedAt: Time)
    | Refuse
    | Elsewhere(action: Action)

  // RefreshSession: a cookie means a browser, whatever the header says.
  function SendAction(c: Client, e: Event): Action
    requires e.Send?
  {
    var (token, fromCookie) := Presents(c, e.stray);
    Present(e.req, Sha256(token), if fromCookie then "web" else PlatformOf(e.header))
  }

  // Everybody else, including other requests, the sweeper and the clock, may do anything except
  // present this family's tokens (they do not hold them) or stop the client's own request.
  predicate Polite(w: World, a: Action) {
    match a
    case Present(_, h, _) => !InFamily(w.server, h, w.family)
    case LogoutLookup(_, h) => !InFamily(w.server, h, w.family)
    case Insert(r, _, _) => w.waiting.Some? ==> r != w.waiting.value.req
    case Lookup(r) => w.waiting.Some? ==> r != w.waiting.value.req
    case Abort(r) => w.waiting.Some? ==> r != w.waiting.value.req
    case _ => true
  }

  predicate CanHappen(w: World, e: Event) {
    match e
    case Send(r, _, _) => w.waiting.None? && NewRequest(w.server, r)
    case Deliver(plain, at) =>
      w.waiting.Some? && plain != "" && Enabled(w.server, Insert(w.waiting.value.req, Sha256(plain), at))
    case Refuse => w.waiting.Some? && Enabled(w.server, Lookup(w.waiting.value.req))
    case Elsewhere(a) => Enabled(w.server, a) && Polite(w, a)
  }

  function Next(w: World, e: Event, policy: Policy): World
    requires CanHappen(w, e)
  {
    match e
    case Send(r, header, stray) =>
      var asCookie := if policy.AsAsked? then Presents(w.client, stray).1 else IsWeb(PlatformOf(header));
      w.(server := Step(w.server, SendAction(w.client, e)), waiting := Some(Pending(r, asCookie, header)))
    case Deliver(plain, at) =>
      w.(server := Step(w.server, Insert(w.waiting.value.req, Sha256(plain), at)),
         client := Receive(w.client, SessionResponse(plain, w.waiting.value.asCookie)),
         waiting := None)
    case Refuse =>
      w.(server := Step(w.server, Lookup(w.waiting.value.req)), waiting := None)
    case Elsewhere(a) => w.(server := Step(w.server, a))
  }

  // ----- What an honest session looks like -----

  // The client holds the last token of its chain ...
  predicate HoldsLast(w: World) {
    && w.family in w.server.log.chain
    && w.server.log.chain[w.family] != []
    && Held(w.client) != ""
    && Sha256(Held(w.client)) == w.server.log.chain[w.family][|w.server.log.chain[w.family]| - 1]
  }

  function SpentCount(s: State, f: FamilyId): nat {
    |Logged(s.log.spends, f)|
  }

  // What a refresh asks for: a browser is a browser, and an app is what its header says, if anything.
  predicate AsksFor(c: Client, header: Option<string>, platform: string) {
    match c
    case Browser(_) => platform == "web"
    case App(_) => platform == if header == None then "" else header.value
  }

  // ... which is unspent, unless the client's own request just spent it ...
  predicate SlotOk(w: World)
    requires HoldsLast(w)
  {
    var n := |w.server.log.chain[w.family]|;
    match w.waiting
    case None => SpentCount(w.server, w.family) == n - 1
    case Some(p) =>
      && p.asCookie == w.client.Browser?
      && p.req in w.server.flight
      && match w.server.flight[p.req]
         case Minting(f, _, platform, _) =>
           && f == w.family && SpentCount(w.server, w.family) == n
           && AsksFor(w.client, p.header, platform)
         case Failed(h) => h == Sha256(Held(w.client)) && SpentCount(w.server, w.family) == n - 1
         case Revoking(_) => false
  }

  // ... and no other request is working on the family, nothing of which is revoked.
  predicate Alone(w: World, r: RequestId)
    requires r in w.server.flight
  {
    match w.server.flight[r]
    case Minting(f, _, _, _) => f == w.family ==> w.waiting.Some? && w.waiting.value.req == r
    case Failed(h) => InFamily(w.server, h, w.family) ==> w.waiting.Some? && w.waiting.value.req == r
    case Revoking(f) => f != w.family
  }

  predicate NothingRevoked(s: State, f: FamilyId) {
    forall h <- s.rows :: s.rows[h].family == f ==> s.rows[h].revokedAt.None?
  }

  ghost predicate Honest(w: World) {
    && Inv(w.server)
    && HoldsLast(w) && SlotOk(w)
    && (forall r <- w.server.flight :: Alone(w, r))
    && NothingRevoked(w.server, w.family)
  }

  // ----- Steps -----

  lemma HeldFacts(w: World)
    requires Honest(w)
    ensures var h := Sha256(Held(w.client));
            && InFamily(w.server, h, w.family)
            && w.server.log.minted[h].index == |w.server.log.chain[w.family]| - 1
            && Kept(w.server, h)
            && (h in w.server.rows ==> RowOk(w.server, h))
  {
    var c := w.server.log.chain[w.family];
    assert ListedOk(w.server, w.family) && PlacedAt(w.server, c[|c| - 1], w.family, |c| - 1);
  }

  // The held token can be spent at any time before it expires, and only then.
  lemma HeldIsSpendable(w: World)
    requires Honest(w) && w.waiting.None?
    ensures Sha256(Held(w.client)) in w.server.log.minted
    ensures Spendable(w.server.rows, Sha256(Held(w.client)), w.server.now)
            <==> w.server.now < w.server.log.minted[Sha256(Held(w.client))].expiresAt
  {
    HeldFacts(w);
    hide Inv;
  }

  lemma PresentsHeld(c: Client, stray: Option<string>)
    requires Held(c) != ""
    ensures Presents(c, stray) == (Held(c), c.Browser?)
  {
  }

  // The client's own spend, or its own failed spend, is all that its request puts in flight.
  lemma SendLeavesAlone(w: World, r: RequestId, h: Hash, p: Platform, header: Option<string>)
    requires Honest(w) && w.waiting.None? && NewRequest(w.server, r)
    ensures var w' := w.(server := PresentStep(w.server, r, h, p),
                         waiting := Some(Pending(r, w.client.Browser?, header)));
            (forall q <- w'.server.flight :: Alone(w', q)) && NothingRevoked(w'.server, w.family)
  {
    hide Inv;
    var s, s' := w.server, PresentStep(w.server, r, h, p);
    assert s'.log.minted == s.log.minted;
    forall q <- s'.flight ensures Alone(w.(server := s', waiting := Some(Pending(r, w.client.Browser?, header))), q) {
      assert q == r || (q in s.flight && s'.flight[q] == s.flight[q] && Alone(w, q));
    }
  }

  lemma SendKeepsHolding(w: World, r: RequestId, h: Hash, p: Platform, header: Option<string>)
    requires Honest(w) && w.waiting.None? && h == Sha256(Held(w.client)) && AsksFor(w.client, header, p)
    ensures var w' := w.(server := PresentStep(w.server, r, h, p),
                         waiting := Some(Pending(r, w.client.Browser?, header)));
            HoldsLast(w') && SlotOk(w')
  {
    HeldFacts(w);
    hide Inv, Alone, NothingRevoked;
  }

  lemma HoldsSomething(w: World)
    requires HoldsLast(w)
    ensures Held(w.client) != ""
  {
  }

  lemma SendStaysHonest(w: World, e: Event)
    requires Honest(w) && e.Send? && CanHappen(w, e)
    ensures Honest(Next(w, e, AsAsked))
  {
    hide Inv, HoldsLast, SlotOk, Alone, NothingRevoked, PresentStep;
    var h := Sha256(Held(w.client));
    var p := SendAction(w.client, e).platform;
    assert Held(w.client) != "" by { HoldsSomething(w); }
    PresentsHeld(w.client, e.stray);
    StepKeepsInv(w.server, SendAction(w.client, e));
    SendLeavesAlone(w, e.req, h, p, e.header);
    SendKeepsHolding(w, e.req, h, p, e.header);
    assert Next(w, e, AsAsked) ==
           w.(server := PresentStep(w.server, e.req, h, p),
              waiting := Some(Pending(e.req, w.client.Browser?, e.header)));
  }

  // A new token belongs to nobody's failed spend, so the other requests stay clear of the family.
  lemma InsertLeavesAlone(w: World, a: Action, w': World)
    requires Honest(w) && Enabled(w.server, a) && a.Insert? && w'.server == Step(w.server, a) && w'.family == w.family
    requires w'.waiting == w.waiting || (w.waiting.Some? && w.waiting.value.req == a.req)
    ensures forall q <- w'.server.flight :: Alone(w', q)
    ensures NothingRevoked(w'.server, w.family)
  {
    var s := w.server;
    var s' := InsertStep(s, a.req, a.hash, a.mintedAt);
    forall q <- s'.flight ensures Alone(w', q) {
      assert q != a.req && s'.flight[q] == s.flight[q] && Alone(w, q);
      if s.flight[q].Failed? {
        assert FailedOk(s, q);
        assert s.flight[q].hash != a.hash;
      }
    }
  }

  lemma InsertExtends(s: State, a: Action, f: FamilyId)
    requires Enabled(s, a) && a.Insert? && f in s.log.chain
    ensures var s' := Step(s, a);
            && f in s'.log.chain
            && s'.log.chain[f] == s.log.chain[f] + (if s.flight[a.req].family == f then [a.hash] else [])
            && s'.log.spends == s.log.spends && s'.flight == s.flight - {a.req}
  {
  }

  lemma DeliverStaysHonest(w: World, e: Event)
    requires Honest(w) && e.Deliver? && CanHappen(w, e)
    ensures Honest(Next(w, e, AsAsked))
    ensures Held(Next(w, e, AsAsked).client) == e.plain
  {
    hide Inv, Alone, NothingRevoked, Step;
    var w' := Next(w, e, AsAsked);
    var a := Insert(w.waiting.value.req, Sha256(e.plain), e.mintedAt);
    assert Enabled(w.server, a);
    hide Enabled;
    StepKeepsInv(w.server, a);
    InsertLeavesAlone(w, a, w');
    InsertExtends(w.server, a, w.family);
  }

  // The look-up of a request whose token was never used ends the request and changes nothing else.
  lemma UnusedLookupEnds(s: State, r: RequestId)
    requires Enabled(s, Lookup(r))
    requires s.flight[r].hash in s.rows ==> s.rows[s.flight[r].hash].usedAt.None?
    ensures Step(s, Lookup(r)) == s.(flight := s.flight - {r})
  {
  }

  lemma AloneWithout(w: World, r: RequestId)
    requires w.waiting.Some? && w.waiting.value.req == r && r in w.server.flight
    requires forall q <- w.server.flight :: Alone(w, q)
    ensures var w' := w.(server := w.server.(flight := w.server.flight - {r}), waiting := None);
            forall q <- w'.server.flight :: Alone(w', q)
  {
    assert forall q <- w.server.flight - {r} :: q != r && Alone(w, q);
  }

  lemma RowsDecideRevoked(s: State, s': State, f: FamilyId)
    requires NothingRevoked(s, f) && s'.rows == s.rows
    ensures NothingRevoked(s', f)
  {
  }

  lemma RefuseStaysHonest(w: World)
    requires Honest(w) && CanHappen(w, Refuse)
    ensures Honest(Next(w, Refuse, AsAsked))
    ensures Next(w, Refuse, AsAsked).client == w.client && Next(w, Refuse, AsAsked).server.rows == w.server.rows
  {
    var r := w.waiting.value.req;
    HeldFacts(w);
    hide Inv, Step, Alone, NothingRevoked, Kept;
    UnusedLookupEnds(w.server, r);
    hide Enabled, Spent, RowOk;
    StepKeepsInv(w.server, Lookup(r));
    AloneWithout(w, r);
    RowsDecideRevoked(w.server, w.server.(flight := w.server.flight - {r}), w.family);
  }

  predicate KeepsRequest(w: World, s': State) {
    w.waiting.None?
    || (w.waiting.value.req in w.server.flight && w.waiting.value.req in s'.flight
        && s'.flight[w.waiting.value.req] == w.server.flight[w.waiting.value.req])
  }

  // What the client holds depends on its family's history and its own request only.
  lemma HoldingDependsOn(w: World, s': State)
    requires HoldsLast(w) && SlotOk(w)
    requires w.family in s'.log.chain && s'.log.chain[w.family] == w.server.log.chain[w.family]
    requires Logged(s'.log.spends, w.family) == Logged(w.server.log.spends, w.family)
    requires KeepsRequest(w, s')
    ensures HoldsLast(w.(server := s')) && SlotOk(w.(server := s'))
  {
  }

  lemma WaitingUntouched(w: World, a: Action)
    requires Honest(w) && w.waiting.Some?
    requires Enabled(w.server, a) && Polite(w, a) && QuietAction(w.server, a)
    ensures w.waiting.value.req in w.server.flight && w.waiting.value.req in Step(w.server, a).flight
    ensures Step(w.server, a).flight[w.waiting.value.req] == w.server.flight[w.waiting.value.req]
  {
    hide Inv;
  }

  lemma QuietKeepsHolding(w: World, a: Action)
    requires Honest(w) && Enabled(w.server, a) && Polite(w, a) && QuietAction(w.server, a)
    ensures HoldsLast(w.(server := Step(w.server, a))) && SlotOk(w.(server := Step(w.server, a)))
  {
    QuietActionsAreQuiet(w.server, a);
    if w.waiting.Some? {
      WaitingUntouched(w, a);
    }
    hide Step, Enabled, Polite, QuietAction, Alone, NothingRevoked, Inv;
    HoldingDependsOn(w, Step(w.server, a));
  }

  lemma RevokingElsewhere(w: World, a: Action)
    requires Honest(w) && Enabled(w.server, a) && Polite(w, a)
    ensures a.Lookup? && w.server.flight[a.req].hash in w.server.rows ==>
              w.server.rows[w.server.flight[a.req].hash].family != w.family
    ensures a.LogoutLookup? && a.hash in w.server.rows ==> w.server.rows[a.hash].family != w.family
  {
    if a.Lookup? && w.server.flight[a.req].hash in w.server.rows {
      assert RowOk(w.server, w.server.flight[a.req].hash) && Alone(w, a.req);
    }
    if a.LogoutLookup? && a.hash in w.server.rows {
      assert RowOk(w.server, a.hash);
    }
  }

  lemma QuietLeavesAlone(w: World, a: Action)
    requires Honest(w) && Enabled(w.server, a) && Polite(w, a) && QuietAction(w.server, a)
    ensures forall r <- Step(w.server, a).flight :: Alone(w.(server := Step(w.server, a)), r)
  {
    var s, s' := w.server, Step(w.server, a);
    QuietActionsAreQuiet(s, a);
    RevokingElsewhere(w, a);
    hide Inv, HoldsLast, SlotOk, NothingRevoked;
    forall r <- s'.flight ensures Alone(w.(server := s'), r) {
      QuietFlights(s, a, r);
      assert r in s.flight ==> Alone(w, r);
      hide Step, QuietAction, Enabled;
    }
  }

  lemma RevokingIsElsewhere(w: World)
    requires forall r <- w.server.flight :: Alone(w, r)
    ensures forall r <- w.server.flight :: w.server.flight[r].Revoking? ==> w.server.flight[r].family != w.family
  {
    assert forall r <- w.server.flight :: Alone(w, r);
  }

  lemma QuietRevokesNothing(w: World, a: Action)
    requires Honest(w) && Enabled(w.server, a) && Polite(w, a) && QuietAction(w.server, a)
    ensures NothingRevoked(Step(w.server, a), w.family)
  {
    var s, s' := w.server, Step(w.server, a);
    QuietActionsAreQuiet(s, a);
    hide Inv, HoldsLast, SlotOk, Polite;
    forall h <- s'.rows | s'.rows[h].family == w.family ensures s'.rows[h].revokedAt.None? {
      if s'.rows[h].revokedAt.Some? {
        QuietRevokes(s, a, h);
        RevokingIsElsewhere(w);
      }
      hide Step, QuietAction, Alone;
    }
  }

  // Somebody else's quiet step does not touch the family.
  lemma QuietElsewhere(w: World, a: Action)
    requires Honest(w) && Enabled(w.server, a) && Polite(w, a) && QuietAction(w.server, a)
    ensures Honest(w.(server := Step(w.server, a)))
  {
    hide Inv, Step, Enabled, Polite, QuietAction, Alone, NothingRevoked, HoldsLast, SlotOk;
    StepKeepsInv(w.server, a);
    QuietActionsAreQuiet(w.server, a);
    QuietKeepsHolding(w, a);
    QuietLeavesAlone(w, a);
    QuietRevokesNothing(w, a);
  }

  lemma BeginLeavesAlone(w: World, a: Action)
    requires Honest(w) && Enabled(w.server, a) && a.Begin?
    ensures var s' := Step(w.server, a);
            && w.family in s'.log.chain && s'.log.chain[w.family] == w.server.log.chain[w.family]
            && Logged(s'.log.spends, w.family) == Logged(w.server.log.spends, w.family)
            && KeepsRequest(w, s')
            && (forall q <- s'.flight :: Alone(w.(server := s'), q)) && NothingRevoked(s', w.family)
  {
    var s' := Step(w.server, a);
    assert a.family != w.family;
    hide Inv;
    forall q <- s'.flight ensures Alone(w.(server := s'), q) {
      assert q == a.req || (q in w.server.flight && s'.flight[q] == w.server.flight[q] && Alone(w, q));
    }
  }

  lemma BeginElsewhere(w: World, a: Action)
    requires Honest(w) && Enabled(w.server, a) && a.Begin?
    ensures Honest(w.(server := Step(w.server, a)))
  {
    hide Inv, Step, Enabled, Alone, NothingRevoked, HoldsLast, SlotOk;
    StepKeepsInv(w.server, a);
    BeginLeavesAlone(w, a);
    HoldingDependsOn(w, Step(w.server, a));
  }

  lemma InsertElsewhere(w: World, a: Action)
    requires Honest(w) && Enabled(w.server, a) && Polite(w, a) && a.Insert?
    ensures Honest(w.(server := Step(w.server, a)))
  {
    hide Inv, NothingRevoked, Step;
    assert Alone(w, a.req);
    hide Alone, Enabled;
    StepKeepsInv(w.server, a);
    InsertLeavesAlone(w, a, w.(server := Step(w.server, a)));
    InsertExtends(w.server, a, w.family);
  }

  lemma SpendExtends(s: State, a: Action, f: FamilyId)
    requires Enabled(s, a) && a.Present? && Spendable(s.rows, a.hash, s.now) && s.rows[a.hash].family != f
    ensures var s' := Step(s, a);
            && s'.log.chain == s.log.chain && Logged(s'.log.spends, f) == Logged(s.log.spends, f)
            && s'.flight.Keys == s.flight.Keys + {a.req} && (forall q <- s.flight :: s'.flight[q] == s.flight[q])
  {
  }

  lemma SpendMovesElsewhere(s: State, a: Action)
    requires Enabled(s, a) && a.Present? && Spendable(s.rows, a.hash, s.now)
    ensures var s', row := Step(s, a), s.rows[a.hash];
            && s'.flight == s.flight[a.req := Minting(row.family, row.user, a.platform, s.now)]
            && s'.log.minted == s.log.minted && s'.rows == Use(s.rows, a.hash, s.now)
  {
  }

  lemma SpendLeavesAlone(w: World, a: Action)
    requires Honest(w) && Enabled(w.server, a) && Polite(w, a)
    requires a.Present? && Spendable(w.server.rows, a.hash, w.server.now)
    ensures w.server.rows[a.hash].family != w.family
    ensures var w' := w.(server := Step(w.server, a));
            (forall q <- w'.server.flight :: Alone(w', q)) && NothingRevoked(w'.server, w.family)
  {
    assert RowOk(w.server, a.hash);
    hide Inv;
    SpendMovesElsewhere(w.server, a);
    var s, s' := w.server, Step(w.server, a);
    hide Step, Enabled, Polite, Spendable;
    forall q <- s'.flight ensures Alone(w.(server := s'), q) {
      assert q == a.req || Alone(w, q);
    }
  }

  lemma SpendElsewhere(w: World, a: Action)
    requires Honest(w) && Enabled(w.server, a) && Polite(w, a)
    requires a.Present? && Spendable(w.server.rows, a.hash, w.server.now)
    ensures Honest(w.(server := Step(w.server, a)))
  {
    hide Inv, Alone, NothingRevoked, Step, Enabled, Spendable;
    StepKeepsInv(w.server, a);
    SpendLeavesAlone(w, a);
    SpendExtends(w.server, a, w.family);
  }

  lemma NextStaysHonest(w: World, e: Event)
    requires Honest(w) && CanHappen(w, e)
    ensures Honest(Next(w, e, AsAsked))
  {
    hide Honest;
    match e
    case Send(_, _, _) => SendStaysHonest(w, e);
    case Deliver(_, _) => DeliverStaysHonest(w, e);
    case Refuse => RefuseStaysHonest(w);
    case Elsewhere(a) =>
      if QuietAction(w.server, a) {
        QuietElsewhere(w, a);
      } else if a.Begin? {
        BeginElsewhere(w, a);
      } else if a.Insert? {
        InsertElsewhere(w, a);
      } else {
        SpendElsewhere(w, a);
      }
  }

  // ----- Whole sessions -----

  // The row that a delivered token stands for: a web row of the web lifetime for a browser, and a row of
  // the platform the header names, or of none, for an app.
  predicate RowAsAsked(row: Row, config: Config, client: Client, header: Option<string>, at: Time) {
    match client
    case Browser(_) => row.platform == Some("web") && row.expiresAt == at + config.ttlWeb
    case App(_) =>
      if header == Some("web") then row.platform == Some("web") && row.expiresAt == at + config.ttlWeb
      else
        && row.platform == (if header == Some("") then None else header)
        && row.expiresAt == at + config.ttlMobile
  }

  lemma DeliveredRow(w: World, plain: string, at: Time)
    requires Honest(w) && CanHappen(w, Deliver(plain, at))
    ensures var rows := Next(w, Deliver(plain, at), AsAsked).server.rows;
            && Sha256(plain) in rows && rows[Sha256(plain)].usedAt == None && rows[Sha256(plain)].revokedAt == None
            && RowAsAsked(rows[Sha256(plain)], w.server.config, w.client, w.waiting.value.header, at)
  {
    hide Inv, Alone, NothingRevoked;
  }

  lemma ElsewhereKeepsAsking(w: World, a: Action)
    requires CanHappen(w, Elsewhere(a))
    ensures var w' := Next(w, Elsewhere(a), AsAsked);
            w'.waiting == w.waiting && w'.client == w.client && w'.server.config == w.server.config
  {
  }

  ghost predicate Lives(w: World, life: seq<Event>)
    decreases |life|
  {
    life == [] || (CanHappen(w, life[0]) && Lives(Next(w, life[0], AsAsked), life[1..]))
  }

  ghost function After(w: World, life: seq<Event>): World
    requires Lives(w, life)
    decreases |life|
  {
    if life == [] then w else After(Next(w, life[0], AsAsked), life[1..])
  }

  lemma {:induction false} WaitingKeepsAsking(w: World, meanwhile: seq<Event>)
    requires Lives(w, meanwhile) && forall e <- meanwhile :: e.Elsewhere?
    ensures var v := After(w, meanwhile);
            v.waiting == w.waiting && v.client == w.client && v.server.config == w.server.config
    decreases |meanwhile|
  {
    if meanwhile != [] {
      assert meanwhile[0] in meanwhile;
      ElsewhereKeepsAsking(w, meanwhile[0].action);
      hide Next, CanHappen;
      WaitingKeepsAsking(Next(w, meanwhile[0], AsAsked), meanwhile[1..]);
    }
  }

  // However its requests interleave with everybody else's, and whatever header it sends or omits
  // each time, an honest client never has its family revoked ...
  lemma {:induction false} HonestClientIsNeverRevoked(w: World, life: seq<Event>)
    requires Honest(w) && Lives(w, life)
    ensures Honest(After(w, life))
    ensures NothingRevoked(After(w, life).server, w.family) && After(w, life).family == w.family
    decreases |life|
  {
    if life != [] {
      NextStaysHonest(w, life[0]);
      assert Next(w, life[0], AsAsked).family == w.family;
      hide Honest, Next;
      HonestClientIsNeverRevoked(Next(w, life[0], AsAsked), life[1..]);
    }
  }

  // ... and each of its refreshes is accepted exactly when the token it last received has not expired.
  lemma HonestRefreshSucceedsUntilExpiry(w: World, life: seq<Event>, e: Event)
    requires Honest(w) && Lives(w, life) && e.Send? && CanHappen(After(w, life), e)
    ensures var v := After(w, life);
            && Sha256(Held(v.client)) in v.server.log.minted
            && e.req in Next(v, e, AsAsked).server.flight
            && (Next(v, e, AsAsked).server.flight[e.req].Minting?
                <==> v.server.now < v.server.log.minted[Sha256(Held(v.client))].expiresAt)
  {
    HonestClientIsNeverRevoked(w, life);
    var v := After(w, life);
    HeldIsSpendable(v);
    PresentsHeld(v.client, e.stray);
    hide Honest;
  }

  lemma SendRemembersHeader(w: World, e: Event)
    requires e.Send? && CanHappen(w, e)
    ensures var w' := Next(w, e, AsAsked);
            && w'.waiting.Some? && w'.waiting.value.header == e.header
            && w'.client == w.client && w'.server.config == w.server.config
  {
  }

  // At any point of an honest life: a refresh that is answered, whatever others did meanwhile, stores a
  // token of the platform and the lifetime that its transport and its own header ask for.
  lemma RefreshIsStoredAsAsked(w: World, life: seq<Event>, send: Event, meanwhile: seq<Event>, plain: string, at: Time)
    requires Honest(w) && Lives(w, life) && send.Send? && CanHappen(After(w, life), send)
    requires var v := Next(After(w, life), send, AsAsked);
             && Lives(v, meanwhile) && (forall e <- meanwhile :: e.Elsewhere?)
             && CanHappen(After(v, meanwhile), Deliver(plain, at))
    ensures var before := After(w, life);
            var rows := Next(After(Next(before, send, AsAsked), meanwhile), Deliver(plain, at), AsAsked).server.rows;
            && Sha256(plain) in rows && rows[Sha256(plain)].usedAt == None && rows[Sha256(plain)].revokedAt == None
            && RowAsAsked(rows[Sha256(plain)], before.server.config, before.client, send.header, at)
  {
    HonestClientIsNeverRevoked(w, life);
    var before := After(w, life);
    SendRemembersHeader(before, send);
    hide Honest, Next, CanHappen, RowAsAsked, After, Lives;
    NextStaysHonest(before, send);
    var v := Next(before, send, AsAsked);
    HonestClientIsNeverRevoked(v, meanwhile);
    WaitingKeepsAsking(v, meanwhile);
    DeliveredRow(After(v, meanwhile), plain, at);
  }

  // ----- Where an honest session starts, and why the transport matters -----

  // A login is answered by cookie to a browser that says so and in the body to everybody else, once.
  lemma LoginIsDelivered(header: Option<string>, plain: string, c: Client)
    ensures var answer := SessionResponse(plain, IsWeb(PlatformOf(header)));
            && (header == Some("web") ==> answer == Response(Some(plain), None))
            && (header != Some("web") ==> answer == Response(None, Some(plain)))
            && (Held(Receive(c, answer)) == plain <==> (c.Browser? <==> header == Some("web")) || Held(c) == plain)
  {
  }

  lemma AloneIgnoresClient(w: World, c: Client)
    requires forall q <- w.server.flight :: Alone(w.(client := c), q)
    ensures forall q <- w.server.flight :: Alone(w, q)
  {
    assert forall q <- w.server.flight :: Alone(w.(client := c), q) ==> Alone(w, q);
  }

  lemma BirthMoves(s: State, r: RequestId, u: UserId, f: FamilyId, p: Platform, h: Hash, at: Time)
    requires Enabled(s, Begin(r, u, f, p)) && Enabled(Step(s, Begin(r, u, f, p)), Insert(r, h, at))
    ensures var s' := Step(Step(s, Begin(r, u, f, p)), Insert(r, h, at));
            && s'.log.chain == s.log.chain[f := [h]] && s'.log.spends == s.log.spends[f := []]
            && s'.flight == s.flight - {r} && s'.presented == s.presented && Fresh(s, h)
            && (exists row: Row :: row.revokedAt.None? && s'.rows == s.rows[h := row])
            && s'.log.minted.Keys == s.log.minted.Keys + {h} && InFamily(s', h, f)
            && (forall g <- s.log.minted :: s'.log.minted[g] == s.log.minted[g])
  {
    var s1 := Step(s, Begin(r, u, f, p));
    var s' := InsertStep(s1, r, h, at);
    assert [] + [h] == [h];
    assert s'.log.chain == s.log.chain[f := []][f := [h]];
    assert s'.rows == s.rows[h := s'.rows[h]];
  }

  lemma NewFamilyIsQuiet(s: State, f: FamilyId)
    requires Inv(s) && f !in s.log.owner
    ensures forall h <- s.rows :: s.rows[h].family != f
    ensures forall h <- s.log.minted :: s.log.minted[h].family != f
    ensures forall r <- s.flight :: s.flight[r].Revoking? ==> s.flight[r].family != f
  {
    forall r <- s.flight | s.flight[r].Revoking? ensures s.flight[r].family != f {
      var g := s.flight[r].family;
      if q, r :| Replayed(s, g, q, r) {
        assert TokenOk(s, s.presented[q].hash);
      } else {
        var q :| LoggedOut(s, g, q);
        assert TokenOk(s, s.presented[q].hash);
      }
    }
    assert forall h <- s.rows :: RowOk(s, h);
    assert forall h <- s.log.minted :: TokenOk(s, h);
  }

  lemma NewFamilyStandsAlone(s: State, r: RequestId, u: UserId, f: FamilyId, p: Platform, h: Hash, at: Time)
    requires Inv(s) && Enabled(s, Begin(r, u, f, p)) && Enabled(Step(s, Begin(r, u, f, p)), Insert(r, h, at))
    ensures var s' := Step(Step(s, Begin(r, u, f, p)), Insert(r, h, at));
            && f in s'.log.chain && s'.log.chain[f] == [h] && SpentCount(s', f) == 0
            && (forall q <- s'.flight :: Alone(World(s', Browser(""), f, None), q))
            && NothingRevoked(s', f)
  {
    NewFamilyIsQuiet(s, f);
    BirthMoves(s, r, u, f, p, h, at);
    var s' := Step(Step(s, Begin(r, u, f, p)), Insert(r, h, at));
    hide Step;
    forall q <- s'.flight ensures Alone(World(s', Browser(""), f, None), q) {
      assert s.flight[q].Failed? ==> FailedOk(s, q) && s.flight[q].hash != h;
      assert s.flight[q].Minting? ==> MintingOk(s, q);
    }
    hide Inv;
  }

  // LoginUser: nothing was presented, so the header decides, and the client keeps what it receives.
  lemma LoginStartsHonest(s: State, r: RequestId, u: UserId, f: FamilyId, header: Option<string>, plain: string,
                          at: Time)
    requires Inv(s) && Enabled(s, Begin(r, u, f, PlatformOf(header))) && plain != ""
    requires Enabled(Step(s, Begin(r, u, f, PlatformOf(header))), Insert(r, Sha256(plain), at))
    ensures var s' := Step(Step(s, Begin(r, u, f, PlatformOf(header))), Insert(r, Sha256(plain), at));
            var answer := SessionResponse(plain, IsWeb(PlatformOf(header)));
            forall c: Client | Held(Receive(c, answer)) == plain :: Honest(World(s', Receive(c, answer), f, None))
  {
    var p := PlatformOf(header);
    hide Inv, Step, Enabled, Alone, NothingRevoked;
    var s1 := Step(s, Begin(r, u, f, p));
    var s' := Step(s1, Insert(r, Sha256(plain), at));
    StepKeepsInv(s, Begin(r, u, f, p));
    StepKeepsInv(s1, Insert(r, Sha256(plain), at));
    NewFamilyStandsAlone(s, r, u, f, p, Sha256(plain), at);
    forall c: Client | Held(Receive(c, SessionResponse(plain, IsWeb(p)))) == plain
      ensures Honest(World(s', Receive(c, SessionResponse(plain, IsWeb(p))), f, None))
    {
      var w := World(s', Receive(c, SessionResponse(plain, IsWeb(p))), f, None);
      AloneIgnoresClient(w, Browser(""));
      assert HoldsLast(w);
    }
  }

  // The row a rotation leaves behind, which is what a replay of the old token will find.
  lemma RotationLeavesUsedRow(s: State, q: RequestId, r: RequestId, h: Hash, p: Platform, next: Hash)
    requires NewRequest(s, q) && NewRequest(s, r) && q != r
    requires Spendable(s.rows, h, s.now) && Fresh(s, next) && next != h
    ensures var s1 := Step(s, Present(q, h, p));
            && Enabled(s1, Insert(q, next, s.now))
            && var s2 := Step(s1, Insert(q, next, s.now));
            && NewRequest(s2, r)
            && h in s2.rows && s2.rows[h].usedAt.Some? && s2.rows[h].family == s.rows[h].family
  {
    var s1 := PresentStep(s, q, h, p);
    assert s1.flight[q].Minting? && s1.flight[q].since == s.now;
  }

  predicate HoldsUsed(w: World) {
    var h := Sha256(Held(w.client));
    && Held(w.client) != ""
    && h in w.server.rows && w.server.rows[h].usedAt.Some? && w.server.rows[h].family == w.family
  }

  // A browser's refresh without the header, answered by the header: the new token goes to the body,
  // where the browser does not see it, and its cookie stays the spent one.
  lemma HeaderlessRefreshLosesToken(w: World, q: RequestId, r: RequestId, plain: string)
    requires Honest(w) && w.waiting.None? && w.client.Browser?
    requires Spendable(w.server.rows, Sha256(Held(w.client)), w.server.now)
    requires q != r && NewRequest(w.server, q) && NewRequest(w.server, r)
    requires plain != "" && plain != Held(w.client) && Fresh(w.server, Sha256(plain))
    ensures CanHappen(w, Send(q, None, None))
    ensures var w1 := Next(w, Send(q, None, None), ByHeader);
            && CanHappen(w1, Deliver(plain, w.server.now))
            && var w2 := Next(w1, Deliver(plain, w.server.now), ByHeader);
            && w2.client == w.client && w2.family == w.family && w2.waiting.None?
            && NewRequest(w2.server, r) && HoldsUsed(w2)
  {
    HeldFacts(w);
    hide Honest, Spendable, Kept, Step, Fresh;
    RotationLeavesUsedRow(w.server, q, r, Sha256(Held(w.client)), "web", Sha256(plain));
  }

  // Whoever then presents the spent token sets the server out to revoke the family.
  lemma SpentTokenTripsReuse(w: World, r: RequestId)
    requires w.waiting.None? && w.client.Browser? && NewRequest(w.server, r) && HoldsUsed(w)
    ensures CanHappen(w, Send(r, None, None))
    ensures var w1 := Next(w, Send(r, None, None), ByHeader);
            && CanHappen(w1, Refuse)
            && var w2 := Next(w1, Refuse, ByHeader);
            && r in w2.server.flight && w2.server.flight[r] == Revoking(w.family)
  {
    RotationSafety.ReplayIsRefused(w.server, r, Sha256(Held(w.client)), "web");
    hide Step;
  }

  // Choosing the transport by the platform header instead would turn every honest browser that omits
  // the header into its own thief: its second refresh presents the token its first one spent, and
  // the server sets out to revoke the family.
  lemma TransportByHeaderTripsReuse(w: World, q: RequestId, r: RequestId, plain: string)
    requires Honest(w) && w.waiting.None? && w.client.Browser?
    requires Spendable(w.server.rows, Sha256(Held(w.client)), w.server.now)
    requires q != r && NewRequest(w.server, q) && NewRequest(w.server, r)
    requires plain != "" && plain != Held(w.client) && Fresh(w.server, Sha256(plain))
    ensures CanHappen(w, Send(q, None, None))
    ensures var w1 := Next(w, Send(q, None, None), ByHeader);
            && CanHappen(w1, Deliver(plain, w.server.now))
            && var w2 := Next(w1, Deliver(plain, w.server.now), ByHeader);
            && w2.client == w.client
            && CanHappen(w2, Send(r, None, None))
            && var w3 := Next(w2, Send(r, None, None), ByHeader);
            && CanHappen(w3, Refuse)
            && var w4 := Next(w3, Refuse, ByHeader);
            && r in w4.server.flight && w4.server.flight[r] == Revoking(w.family)
  {
    hide *;
    HeaderlessRefreshLosesToken(w, q, r, plain);
    var w1 := Next(w, Send(q, None, None), ByHeader);
    SpentTokenTripsReuse(Next(w1, Deliver(plain, w.server.now), ByHeader), r);
  }
}
